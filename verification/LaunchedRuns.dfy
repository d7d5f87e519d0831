/**
 The runs a conversation launched (frontend/src/experiments.tsx:1588-1618, 1729-1732): the key that
 carries the launched ids into the read, the merge of what is listed with what is read by id, and
 the rows of one launch card.
 */
module LaunchedRuns {
  import opened Wrappers
  import opened Filters
  import opened Splits
  import opened Texts
  import opened StableSort

  // --- the key: the number of launches, a colon, the ids with a space between ---

  function Key(launches: nat, ids: seq<string>): string { Decimal(launches) + ":" + Joined(ids, " ") }

  function IndexOf(s: string, c: char): (i: int)
    ensures -1 <= i < |s|
    ensures i >= 0 ==> s[i] == c
    ensures forall j :: 0 <= j < (if i >= 0 then i else |s|) ==> s[j] != c
  {
    if s == "" then -1
    else if s[0] == c then 0
    else
      var i := IndexOf(s[1..], c);
      if i == -1 then -1 else i + 1
  }

  function Words(s: string): (words: seq<string>)
    ensures forall i :: 0 <= i < |words| ==> IsWord(words[i])
  {
    var words := Kept(Split(s, ' '), (piece: string) => piece != "");
    assert forall i :: 0 <= i < |words| ==> words[i] in words;
    words
  }

  function IdsOf(key: string): seq<string> { Words(key[IndexOf(key, ':') + 1..]) }

  predicate IsWord(id: string) { id != "" && ' ' !in id }

  predicate AllWords(ids: seq<string>) { forall i :: 0 <= i < |ids| ==> IsWord(ids[i]) }

  function WordsOfAll(ids: seq<string>): seq<string> {
    if ids == [] then [] else Words(ids[0]) + WordsOfAll(ids[1..])
  }

  lemma WordsOfBoth(s: string, t: string)
    ensures Words(s + " " + t) == Words(s) + Words(t)
  {
    SplitAtSeparator(s, t, ' ');
    KeptOfBoth(Split(s, ' '), Split(t, ' '), (piece: string) => piece != "");
  }

  lemma WordsOfWord(id: string)
    requires IsWord(id)
    ensures Words(id) == [id]
  {
    SplitWithout(id, ' ');
    KeptAll([id], (piece: string) => piece != "");
  }

  lemma {:induction false} WordsOfJoined(ids: seq<string>)
    ensures Words(Joined(ids, " ")) == WordsOfAll(ids)
  {
    if |ids| == 1 {
      assert WordsOfAll(ids[1..]) == [];
    } else if ids != [] {
      WordsOfBoth(ids[0], Joined(ids[1..], " "));
      WordsOfJoined(ids[1..]);
    }
  }

  lemma {:induction false} WordsAreKept(ids: seq<string>)
    requires AllWords(ids)
    ensures WordsOfAll(ids) == ids
  {
    if ids != [] {
      WordsOfWord(ids[0]);
      WordsAreKept(ids[1..]);
      assert ids == [ids[0]] + ids[1..];
    }
  }

  lemma ColonEndsTheCount(launches: nat, ids: seq<string>)
    ensures IndexOf(Key(launches, ids), ':') == |Decimal(launches)|
    ensures Key(launches, ids)[|Decimal(launches)| + 1..] == Joined(ids, " ")
  {
    hide Decimal, Joined, IndexOf;
    DecimalHasNoColon(launches);
    var key, n := Key(launches, ids), |Decimal(launches)|;
    assert key[n] == ':';
    assert forall j :: 0 <= j < n ==> key[j] == Decimal(launches)[j];
  }

  /** Whatever the ids are, what comes back is every word in them, in order. */
  lemma KeyCarriesTheWords(launches: nat, ids: seq<string>)
    ensures IdsOf(Key(launches, ids)) == WordsOfAll(ids)
  {
    ColonEndsTheCount(launches, ids);
    WordsOfJoined(ids);
  }

  lemma {:induction false} OnlyWords(ids: seq<string>)
    ensures AllWords(WordsOfAll(ids))
  {
    if ids != [] {
      OnlyWords(ids[1..]);
    }
  }

  /** The ids survive the key exactly when none is empty and none holds a space; colons do no harm. */
  lemma KeyRoundTrip(launches: nat, ids: seq<string>)
    ensures IdsOf(Key(launches, ids)) == ids <==> AllWords(ids)
  {
    KeyCarriesTheWords(launches, ids);
    OnlyWords(ids);
    if AllWords(ids) {
      WordsAreKept(ids);
    }
  }

  /** Equal keys are equal inputs, so an effect that depends on the key runs when they change. */
  lemma KeyIsInjective(launches: nat, ids: seq<string>, launches': nat, ids': seq<string>)
    requires AllWords(ids) && AllWords(ids')
    ensures Key(launches, ids) == Key(launches', ids') <==> launches == launches' && ids == ids'
  {
    if Key(launches, ids) == Key(launches', ids') {
      KeyRoundTrip(launches, ids);
      KeyRoundTrip(launches', ids');
      ColonEndsTheCount(launches, ids);
      ColonEndsTheCount(launches', ids');
      var n := |Decimal(launches)|;
      assert Key(launches, ids)[..n] == Decimal(launches);
      assert Key(launches', ids')[..n] == Decimal(launches');
      DecimalIsInjective(launches, launches');
    }
  }

  // --- the merge ---

  datatype Status = PENDING | RUNNING | STOPPED | SUCCEEDED | FAILED

  /** submitted stands for submitted_at, by its place in localeCompare's order. */
  datatype Experiment = Experiment(id: string, session: string, submitted: int, status: Status)

  datatype Urls = Urls(ray: string, mlflow: string)

  datatype Listing = Listing(experiments: seq<Experiment>, urls: Urls)

  predicate IsFinished(status: Status) { status == STOPPED || status == SUCCEEDED || status == FAILED }

  predicate HasUnfinished(runs: seq<Experiment>) {
    exists i :: 0 <= i < |runs| && !IsFinished(runs[i].status)
  }

  /** A job waits, runs, and then stops, succeeds or fails for good. */
  predicate CanLeave(status: Status) { status == PENDING || status == RUNNING }

  /** Some run among these has a status its job can still leave. */
  predicate StillGoing(runs: seq<Experiment>) {
    exists i :: 0 <= i < |runs| && CanLeave(runs[i].status)
  }

  lemma UnfinishedIsStillGoing(runs: seq<Experiment>)
    ensures HasUnfinished(runs) <==> StillGoing(runs)
  {
    if i :| 0 <= i < |runs| && !IsFinished(runs[i].status) {
      assert CanLeave(runs[i].status);
    }
    if i :| 0 <= i < |runs| && CanLeave(runs[i].status) {
      assert !IsFinished(runs[i].status);
    }
  }

  function Ids(runs: seq<Experiment>): (ids: seq<string>)
    ensures |ids| == |runs|
    ensures forall i :: 0 <= i < |runs| ==> ids[i] == runs[i].id
  {
    seq(|runs|, i requires 0 <= i < |runs| => runs[i].id)
  }

  function Mine(listing: seq<Experiment>, session: string): seq<Experiment> {
    Kept(listing, (run: Experiment) => run.session == session)
  }

  function Missing(mine: seq<Experiment>, ids: seq<string>): seq<string> {
    Kept(ids, id => id !in Ids(mine))
  }

  /** What came of the reads by id, without those that failed. */
  function Readable(replies: seq<Option<Experiment>>): (runs: seq<Experiment>)
    ensures forall run :: run in runs <==> Some(run) in replies
  {
    if replies == [] then []
    else (if replies[0].Some? then [replies[0].value] else []) + Readable(replies[1..])
  }

  function SubmittedAt(run: Experiment): int { run.submitted }

  function Merged(mine: seq<Experiment>, replies: seq<Option<Experiment>>): seq<Experiment> {
    Sorted(mine + Readable(replies), SubmittedAt)
  }

  /** Each read was answered with the run it asked for, or failed. */
  predicate Truthful(asked: seq<string>, replies: seq<Option<Experiment>>) {
    |replies| == |asked| &&
    forall i :: 0 <= i < |replies| ==> replies[i].Some? ==> replies[i].value.id == asked[i]
  }

  lemma {:induction false} InsertedIds(run: Experiment, runs: seq<Experiment>)
    ensures multiset(Ids(Inserted(run, runs, SubmittedAt))) == multiset{run.id} + multiset(Ids(runs))
  {
    var after := Inserted(run, runs, SubmittedAt);
    if after == [run] + runs {
      assert Ids(after) == [run.id] + Ids(runs);
    } else {
      InsertedIds(run, runs[1..]);
      assert Ids(after) == [runs[0].id] + Ids(Inserted(run, runs[1..], SubmittedAt));
      assert Ids(runs) == [runs[0].id] + Ids(runs[1..]);
    }
  }

  lemma {:induction false} SortedIds(runs: seq<Experiment>)
    ensures multiset(Ids(Sorted(runs, SubmittedAt))) == multiset(Ids(runs))
  {
    if runs != [] {
      SortedIds(runs[1..]);
      InsertedIds(runs[0], Sorted(runs[1..], SubmittedAt));
      assert Ids(runs) == [runs[0].id] + Ids(runs[1..]);
    }
  }

  lemma MergedIds(mine: seq<Experiment>, replies: seq<Option<Experiment>>)
    ensures multiset(Merged(mine, replies)) == multiset(mine) + multiset(Readable(replies))
    ensures multiset(Ids(Merged(mine, replies))) == multiset(Ids(mine)) + multiset(Ids(Readable(replies)))
  {
    hide Sorted, Readable;
    var all := mine + Readable(replies);
    SortedIsAPermutation(all, SubmittedAt);
    SortedIds(all);
    assert Ids(all) == Ids(mine) + Ids(Readable(replies));
  }

  /** The records on the card: the session's own among the listed ones, and those read by id. */
  lemma MergedHolds(listing: seq<Experiment>, session: string, replies: seq<Option<Experiment>>)
    ensures forall run :: run in Merged(Mine(listing, session), replies) <==>
      (run in listing && run.session == session) || Some(run) in replies
  {
    var mine := Mine(listing, session);
    MergedIds(mine, replies);
    var merged, read := Merged(mine, replies), Readable(replies);
    forall run ensures run in merged <==> run in mine || run in read {
      assert run in merged <==> run in multiset(merged);
      assert run in mine <==> run in multiset(mine);
      assert run in read <==> run in multiset(read);
    }
  }

  lemma {:induction false} ReadableOnce(asked: seq<string>, replies: seq<Option<Experiment>>)
    requires Truthful(asked, replies) && NoneTwice(asked)
    ensures NoneTwice(Ids(Readable(replies)))
    ensures forall id :: id in Ids(Readable(replies)) ==> id in asked
    decreases |asked|
  {
    if asked != [] {
      ReadableOnce(asked[1..], replies[1..]);
      var rest := Readable(replies[1..]);
      if replies[0].Some? {
        assert Ids(Readable(replies)) == [replies[0].value.id] + Ids(rest);
        NoneTwiceOfBoth([asked[0]], Ids(rest));
        assert asked[0] !in asked[1..];
      } else {
        assert Readable(replies) == rest;
      }
    }
  }

  lemma {:induction false} KeptOnce(listing: seq<Experiment>, session: string)
    requires NoneTwice(Ids(listing))
    ensures NoneTwice(Ids(Mine(listing, session)))
    decreases |listing|
  {
    if listing != [] {
      var rest := listing[1..];
      assert Ids(listing) == [listing[0].id] + Ids(rest);
      NoneTwiceOfBoth([listing[0].id], Ids(rest));
      KeptOnce(rest, session);
      var mine := Mine(rest, session);
      if listing[0].session == session {
        assert Ids(Mine(listing, session)) == [listing[0].id] + Ids(mine);
        NoneTwiceOfBoth([listing[0].id], Ids(mine));
        forall id | id in Ids(mine) ensures id in Ids(rest) {
          var i :| 0 <= i < |mine| && mine[i].id == id;
          assert mine[i] in mine;
          assert mine[i] in rest;
        }
      } else {
        assert Mine(listing, session) == mine;
      }
    }
  }

  lemma {:induction false} MissingOnce(mine: seq<Experiment>, ids: seq<string>)
    requires NoneTwice(ids)
    ensures NoneTwice(Missing(mine, ids))
    decreases |ids|
  {
    if ids != [] {
      assert ids == [ids[0]] + ids[1..];
      NoneTwiceOfBoth([ids[0]], ids[1..]);
      MissingOnce(mine, ids[1..]);
      NoneTwiceOfBoth([ids[0]], Missing(mine, ids[1..]));
      assert ids[0] in [ids[0]];
    }
  }

  /** The listing holds a run of this session with this id. */
  predicate IsListed(listing: seq<Experiment>, session: string, id: string) {
    exists i :: 0 <= i < |listing| && listing[i].session == session && listing[i].id == id
  }

  /** A read found a run with this id. */
  predicate IsRead(replies: seq<Option<Experiment>>, id: string) {
    exists i :: 0 <= i < |replies| && replies[i].Some? && replies[i].value.id == id
  }

  lemma ReadIds(replies: seq<Option<Experiment>>, id: string)
    ensures id in Ids(Readable(replies)) <==> IsRead(replies, id)
  {
    var runs := Readable(replies);
    if id in Ids(runs) {
      var k :| 0 <= k < |runs| && runs[k].id == id;
      assert runs[k] in runs;
      var i :| 0 <= i < |replies| && replies[i] == Some(runs[k]);
    }
    if i :| 0 <= i < |replies| && replies[i].Some? && replies[i].value.id == id {
      assert replies[i] in replies;
      assert replies[i].value in runs;
      var k :| 0 <= k < |runs| && runs[k] == replies[i].value;
      assert Ids(runs)[k] == id;
    }
  }

  lemma MineIds(listing: seq<Experiment>, session: string, id: string)
    ensures id in Ids(Mine(listing, session)) <==> IsListed(listing, session, id)
  {
    var mine := Mine(listing, session);
    if id in Ids(mine) {
      var k :| 0 <= k < |mine| && mine[k].id == id;
      assert mine[k] in mine;
      var i :| 0 <= i < |listing| && listing[i] == mine[k];
    }
    if i :| 0 <= i < |listing| && listing[i].session == session && listing[i].id == id {
      assert listing[i] in listing && listing[i] in mine;
      var k :| 0 <= k < |mine| && mine[k] == listing[i];
      assert Ids(mine)[k] == id;
    }
  }

  /** A launch is read by id exactly if the session's listing does not account for it. */
  lemma AsksForTheUnlisted(listing: seq<Experiment>, session: string, ids: seq<string>, id: string)
    ensures id in Missing(Mine(listing, session), ids) <==> id in ids && !IsListed(listing, session, id)
  {
    MineIds(listing, session, id);
  }

  /** Which runs are on the card, whatever the listing and the replies are like, and that the newest are first. */
  lemma MergeIsExact(listing: seq<Experiment>, session: string, replies: seq<Option<Experiment>>)
    ensures var runs := Merged(Mine(listing, session), replies);
      && (forall id :: id in Ids(runs) <==> IsListed(listing, session, id) || IsRead(replies, id))
      && NewestFirst(runs)
  {
    var mine := Mine(listing, session);
    var runs, read := Merged(mine, replies), Readable(replies);
    MergedIds(mine, replies);
    SortedDescends(mine + read, SubmittedAt);
    forall id ensures id in Ids(runs) <==> IsListed(listing, session, id) || IsRead(replies, id) {
      ReadIds(replies, id);
      MineIds(listing, session, id);
      assert id in Ids(runs) <==> id in multiset(Ids(runs));
      assert id in Ids(mine) <==> id in multiset(Ids(mine));
      assert id in Ids(read) <==> id in multiset(Ids(read));
    }
    forall i, j | 0 <= i < j < |runs| ensures runs[i].submitted >= runs[j].submitted {
      assert SubmittedAt(runs[i]) >= SubmittedAt(runs[j]);
    }
  }

  /** Runs submitted at one time stay as they came: the listed ones in the listing's order, then those read. */
  lemma TiesComeAsListed(listing: seq<Experiment>, session: string, replies: seq<Option<Experiment>>, at: int)
    ensures Kept(Merged(Mine(listing, session), replies), (run: Experiment) => run.submitted == at) ==
      Kept(listing, (run: Experiment) => run.session == session && run.submitted == at) +
      Kept(Readable(replies), (run: Experiment) => run.submitted == at)
  {
    var mine, read := Mine(listing, session), Readable(replies);
    var runs := Merged(mine, replies);
    SortedKeepsTies(mine + read, SubmittedAt, at);
    TiedIsKept(runs, at);
    TiedIsKept(mine + read, at);
    KeptOfBoth(mine, read, (run: Experiment) => run.submitted == at);
    KeptTwice(listing, session, at);
  }

  lemma {:induction false} TiedIsKept(runs: seq<Experiment>, at: int)
    ensures Tied(runs, SubmittedAt, at) == Kept(runs, (run: Experiment) => run.submitted == at)
  {
    if runs != [] {
      TiedIsKept(runs[1..], at);
    }
  }

  lemma {:induction false} KeptTwice(listing: seq<Experiment>, session: string, at: int)
    ensures Kept(Mine(listing, session), (run: Experiment) => run.submitted == at) ==
      Kept(listing, (run: Experiment) => run.session == session && run.submitted == at)
  {
    if listing != [] {
      KeptTwice(listing[1..], session, at);
      var rest := Mine(listing[1..], session);
      if listing[0].session == session {
        assert Mine(listing, session) == [listing[0]] + rest;
      } else {
        assert Mine(listing, session) == rest;
      }
    }
  }

  /** With no id twice in the listing and none launched twice, every run is on the card just once. */
  lemma EachRunOnce(listing: seq<Experiment>, session: string, ids: seq<string>, replies: seq<Option<Experiment>>)
    requires Truthful(Missing(Mine(listing, session), ids), replies)
    requires NoneTwice(Ids(listing)) && NoneTwice(ids)
    ensures NoneTwice(Ids(Merged(Mine(listing, session), replies)))
  {
    var mine := Mine(listing, session);
    var asked := Missing(mine, ids);
    var read := Readable(replies);
    KeptOnce(listing, session);
    MissingOnce(mine, ids);
    ReadableOnce(asked, replies);
    NoneTwiceOfBoth(Ids(mine), Ids(read));
    NoneTwiceCounts(Ids(mine) + Ids(read));
    MergedIds(mine, replies);
    NoneTwiceCounts(Ids(Merged(mine, replies)));
    forall id | id in Ids(Merged(mine, replies)) ensures id in Ids(mine) + Ids(read) {
      assert id in multiset(Ids(Merged(mine, replies)));
    }
  }

  // --- the rows of one card ---

  function FindRun(runs: seq<Experiment>, id: string): (k: int)
    ensures -1 <= k < |runs|
    ensures k >= 0 ==> runs[k].id == id && forall i :: 0 <= i < k ==> runs[i].id != id
    ensures k == -1 ==> forall i :: 0 <= i < |runs| ==> runs[i].id != id
  {
    if runs == [] then -1
    else if runs[0].id == id then 0
    else
      var k := FindRun(runs[1..], id);
      if k == -1 then -1 else k + 1
  }

  function Unfinished(runs: seq<Experiment>): seq<Experiment> {
    Kept(runs, (run: Experiment) => !IsFinished(run.status))
  }

  /** The card's own run, whatever became of it, and what else is still going. */
  function LaunchedRows(runs: seq<Experiment>, experimentId: Option<string>): seq<Experiment> {
    var k := if experimentId.Some? then FindRun(runs, experimentId.value) else -1;
    if k == -1 then Unfinished(runs)
    else [runs[k]] + Unfinished(runs[..k] + runs[k + 1..])
  }

  /** The runs other than this one whose jobs can still move, in the order of the list. */
  function Others(runs: seq<Experiment>, id: string): seq<Experiment> {
    Kept(runs, (run: Experiment) => CanLeave(run.status) && run.id != id)
  }

  lemma OwnRunIsLeftOut(runs: seq<Experiment>, k: nat)
    requires k < |runs| && NoneTwice(Ids(runs))
    ensures Unfinished(runs[..k] + runs[k + 1..]) == Others(runs, runs[k].id)
  {
    hide Kept;
    var id, front, back := runs[k].id, runs[..k], runs[k + 1..];
    var left := front + back;
    var going := (run: Experiment) => !IsFinished(run.status);
    var other := (run: Experiment) => CanLeave(run.status) && run.id != id;
    forall i | 0 <= i < |left| ensures left[i].id != id {
      var j := if i < k then i else i + 1;
      assert left[i] == runs[j] && Ids(runs)[j] != Ids(runs)[k];
    }
    KeptAgree(left, going, other);
    KeptSkips(front, runs[k], back, other);
    assert runs == front + [runs[k]] + back;
  }

  lemma {:induction false} KeptIdsOnce(runs: seq<Experiment>, keep: Experiment -> bool)
    requires NoneTwice(Ids(runs))
    ensures NoneTwice(Ids(Kept(runs, keep)))
    ensures forall id :: id in Ids(Kept(runs, keep)) ==> id in Ids(runs)
    decreases |runs|
  {
    if runs != [] {
      var rest := Kept(runs[1..], keep);
      assert Ids(runs) == [runs[0].id] + Ids(runs[1..]);
      NoneTwiceOfBoth([runs[0].id], Ids(runs[1..]));
      KeptIdsOnce(runs[1..], keep);
      NoneTwiceOfBoth([runs[0].id], Ids(rest));
      assert Ids(Kept(runs, keep)) == (if keep(runs[0]) then [runs[0].id] else []) + Ids(rest);
      assert runs[0].id in [runs[0].id];
    }
  }

  /** First the card's own run if it is there, then exactly the other unfinished ones; none twice. */
  lemma RowsAreOwnThenOthers(runs: seq<Experiment>, id: string)
    requires NoneTwice(Ids(runs))
    ensures var own := Kept(runs, (run: Experiment) => run.id == id);
      LaunchedRows(runs, Some(id)) == own + Others(runs, id) && |own| == if id in Ids(runs) then 1 else 0
    ensures NoneTwice(Ids(LaunchedRows(runs, Some(id))))
  {
    var k := FindRun(runs, id);
    var others := Others(runs, id);
    KeptIdsOnce(runs, (run: Experiment) => CanLeave(run.status) && run.id != id);
    OnlyOwn(runs, id);
    if k == -1 {
      KeptAgree(runs, (run: Experiment) => !IsFinished(run.status),
        (run: Experiment) => CanLeave(run.status) && run.id != id);
    } else {
      OwnRunIsLeftOut(runs, k);
      assert Ids([runs[k]] + others) == [id] + Ids(others);
      NoneTwiceOfBoth([id], Ids(others));
      assert Ids(runs)[k] == id;
      forall x | x in Ids(others) ensures x != id {
        var i :| 0 <= i < |others| && others[i].id == x;
        assert others[i] in others;
      }
    }
  }

  /** A card without a run of its own, its id unknown or its run not among them, shows all the unfinished ones. */
  lemma RowsWithoutOwn(runs: seq<Experiment>, experimentId: Option<string>)
    requires NoneTwice(Ids(runs)) && (experimentId.Some? ==> experimentId.value !in Ids(runs))
    ensures LaunchedRows(runs, experimentId) == LaunchedRows(runs, None)
    ensures forall run :: run in LaunchedRows(runs, experimentId) <==> run in runs && CanLeave(run.status)
    ensures NoneTwice(Ids(LaunchedRows(runs, experimentId)))
  {
    hide IsFinished, CanLeave;
    KeptIdsOnce(runs, (run: Experiment) => !IsFinished(run.status));
    assert forall i :: 0 <= i < |runs| ==> Ids(runs)[i] in Ids(runs);
    assert experimentId.Some? ==> FindRun(runs, experimentId.value) == -1;
    UnfinishedCanMove(runs);
  }

  lemma UnfinishedCanMove(runs: seq<Experiment>)
    ensures forall run :: run in Unfinished(runs) <==> run in runs && CanLeave(run.status)
  {
  }

  lemma {:induction false} OnlyOwn(runs: seq<Experiment>, id: string)
    requires NoneTwice(Ids(runs))
    ensures var k := FindRun(runs, id);
      Kept(runs, (run: Experiment) => run.id == id) == if k == -1 then [] else [runs[k]]
  {
    if runs != [] {
      assert Ids(runs) == [runs[0].id] + Ids(runs[1..]);
      NoneTwiceOfBoth([runs[0].id], Ids(runs[1..]));
      assert runs[0].id in [runs[0].id];
      OnlyOwn(runs[1..], id);
    }
  }

  predicate NewestFirst(runs: seq<Experiment>) {
    forall i, j :: 0 <= i < j < |runs| ==> runs[i].submitted >= runs[j].submitted
  }

  lemma {:induction false} KeptStaysNewestFirst(runs: seq<Experiment>, keep: Experiment -> bool)
    requires NewestFirst(runs)
    ensures NewestFirst(Kept(runs, keep))
  {
    if runs != [] {
      KeptStaysNewestFirst(runs[1..], keep);
      var rest := Kept(runs[1..], keep);
      forall i | 0 <= i < |rest| ensures rest[i].submitted <= runs[0].submitted {
        assert rest[i] in rest;
        assert rest[i] in runs[1..];
      }
    }
  }

  /**
   The card of a launch whose run is listed or was read: its run, then the others that can still move,
   of this session or read by id, the newest first.
   */
  lemma CardOfALaunch(
    listing: seq<Experiment>, session: string, ids: seq<string>, replies: seq<Option<Experiment>>, id: string)
    requires Truthful(Missing(Mine(listing, session), ids), replies)
    requires NoneTwice(Ids(listing)) && NoneTwice(ids)
    requires IsListed(listing, session, id) || IsRead(replies, id)
    ensures var rows := LaunchedRows(Merged(Mine(listing, session), replies), Some(id));
      rows != [] && rows[0].id == id && NoneTwice(Ids(rows)) && NewestFirst(rows[1..]) &&
      (forall run :: run in rows[1..] <==>
        ((run in listing && run.session == session) || Some(run) in replies) && CanLeave(run.status) && run.id != id)
  {
    hide Merged, Mine, Missing;
    var runs := Merged(Mine(listing, session), replies);
    MergeIsExact(listing, session, replies);
    MergedHolds(listing, session, replies);
    EachRunOnce(listing, session, ids, replies);
    RowsAreOwnThenOthers(runs, id);
    var rows := LaunchedRows(runs, Some(id));
    var own := Kept(runs, (run: Experiment) => run.id == id);
    assert rows[0] == own[0] && own[0] in own;
    assert rows[1..] == Others(runs, id);
    KeptStaysNewestFirst(runs, (run: Experiment) => CanLeave(run.status) && run.id != id);
  }
}
