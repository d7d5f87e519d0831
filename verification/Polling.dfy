/**
 How the launched runs are read and read again (frontend/src/experiments.tsx:1574-1640): a load on
 mount and on every new key, one more at each tick of an interval that is live while a run on the
 card is unfinished, any number of loads in flight, answered in any order.
 */
module Polling {
  import opened Wrappers
  import opened Filters
  import opened StableSort
  import opened LaunchedRuns

  // --- the hook ---

  /** timer is the key the live interval reads with. */
  datatype Hook = Hook(
    session: string, launches: nat, ids: seq<string>,
    runs: seq<Experiment>, urls: Option<Urls>, error: Option<string>, loaded: bool,
    timer: Option<string>)

  function KeyOf(h: Hook): string { Key(h.launches, h.ids) }

  predicate Pending(h: Hook) { h.launches > 0 && HasUnfinished(h.runs) }

  /** The interval, once the effect on pending and the key has run. */
  function Subscribed(h: Hook): Hook {
    h.(timer := if Pending(h) then Some(KeyOf(h)) else None)
  }

  function Mounted(session: string, launches: nat, ids: seq<string>): Hook {
    Hook(session, launches, ids, [], None, None, false, None)
  }

  function Rendered(h: Hook, launches: nat, ids: seq<string>): Hook {
    Subscribed(h.(launches := launches, ids := ids))
  }

  function Answered(h: Hook, listing: Listing, replies: seq<Option<Experiment>>): Hook {
    Subscribed(h.(
      runs := Merged(Mine(listing.experiments, h.session), replies),
      urls := Some(listing.urls), error := None, loaded := true))
  }

  function Failed(h: Hook, message: string): Hook { h.(error := Some(message), loaded := true) }

  /**
   The hook as its state variables and the browser's intervals, changed in place. live holds every
   interval that has been started and not cleared, with the key its tick reads with.
   */
  class LaunchedRunsHook {
    const session: string
    var launches: nat
    var ids: seq<string>
    var runs: seq<Experiment>
    var urls: Option<Urls>
    var error: Option<string>
    var loaded: bool
    var subscribed: bool
    var timer: nat
    var live: map<nat, string>
    var started: nat

    ghost function State(): Hook
      reads this
    {
      Hook(session, launches, ids, runs, urls, error, loaded,
        if timer in live then Some(live[timer]) else None)
    }

    /** One interval at most, only while something is pending, and with the current key. */
    ghost predicate Valid()
      reads this
    {
      subscribed == Pending(State()) &&
      live == (if subscribed then map[timer := Key(launches, ids)] else map[]) &&
      forall n :: n in live ==> n < started
    }

    constructor (session: string, launches: nat, ids: seq<string>)
      ensures Valid() && State() == Mounted(session, launches, ids)
    {
      this.session, this.launches, this.ids := session, launches, ids;
      runs, urls, error, loaded := [], None, None, false;
      subscribed, timer, live, started := false, 0, map[], 0;
    }

    /** The effect on [pending, load]: it runs when either changed, its cleanup before it. */
    method Subscribe(changed: bool)
      requires live.Keys == (if subscribed then {timer} else {})
      requires forall n :: n in live ==> n < started
      requires !changed && subscribed ==> live[timer] == Key(launches, ids)
      modifies this`subscribed, this`timer, this`live, this`started
      ensures Valid() && State() == Subscribed(old(State()))
    {
      var pending := launches > 0 && HasUnfinished(runs);
      if changed || pending != subscribed {
        if subscribed {
          live := live - {timer};
        }
        if pending {
          timer, started := started, started + 1;
          live := live[timer := Key(launches, ids)];
        }
        subscribed := pending;
      }
    }

    /** A render with these props. The first effect reads when the key is a new one. */
    method Render(launches: nat, ids: seq<string>) returns (read: bool)
      requires Valid()
      modifies this
      ensures Valid() && State() == Rendered(old(State()), launches, ids)
      ensures read == (launches > 0 && Key(launches, ids) != KeyOf(old(State())))
    {
      var changed := Key(launches, ids) != Key(this.launches, this.ids);
      this.launches, this.ids := launches, ids;
      Subscribe(changed);
      read := changed && launches > 0;
    }

    /** The ids a tick reads are the ones on screen, never those of an earlier launch. */
    method Tick(n: nat) returns (key: string)
      requires Valid() && n in live
      ensures key == KeyOf(State()) && Pending(State())
    {
      key := live[n];
    }

    method OnAnswer(listing: Listing, replies: seq<Option<Experiment>>)
      requires Valid()
      modifies this
      ensures Valid() && State() == Answered(old(State()), listing, replies)
    {
      runs := Merged(Mine(listing.experiments, session), replies);
      urls, error, loaded := Some(listing.urls), None, true;
      Subscribe(false);
    }

    method OnFailure(message: string)
      requires Valid()
      modifies this
      ensures Valid() && State() == Failed(old(State()), message)
    {
      error, loaded := Some(message), true;
    }
  }

  // --- the cluster and the loads in flight ---

  /**
   One call of load: its listing, as it was when the backend served it, and what the reads by id
   found, each as it was when served.
   */
  datatype Load = Load(key: string, listing: Option<Listing>, replies: map<nat, Option<Experiment>>)

  datatype World = World(cluster: map<string, Experiment>, hook: Hook, loads: seq<Load>)

  datatype Event =
    | Appears(run: Experiment)
    | Moves(id: string, status: Status)
    | Renders(launches: nat, ids: seq<string>)
    | Ticks
    | ListingServed(k: nat, listing: Listing)
    | RunServed(k: nat, i: nat, reply: Option<Experiment>)
    | Answers(k: nat)
    | Fails(k: nat, message: string)

  function Asked(load: Load, session: string): (ids: seq<string>)
    requires load.listing.Some?
  {
    Missing(Mine(load.listing.value.experiments, session), IdsOf(load.key))
  }

  predicate Complete(load: Load, session: string) {
    load.listing.Some? && forall i :: 0 <= i < |Asked(load, session)| ==> i in load.replies
  }

  function Replies(load: Load, session: string): (replies: seq<Option<Experiment>>)
    requires Complete(load, session)
  {
    seq(|Asked(load, session)|, i requires 0 <= i < |Asked(load, session)| => load.replies[i])
  }

  /** The record as the cluster has it now. */
  predicate Current(run: Experiment, cluster: map<string, Experiment>) {
    run.id in cluster && cluster[run.id] == run
  }

  predicate NewKey(w: World, e: Event) {
    e.Renders? && Key(e.launches, e.ids) != KeyOf(w.hook)
  }

  /** A listing holds any current records, a read by id finds the current one or nothing. */
  predicate Possible(w: World, e: Event) {
    match e
    case Appears(run) => run.id !in w.cluster
    case Moves(id, status) => id in w.cluster && CanLeave(w.cluster[id].status)
    case Renders(_, _) => true
    case Ticks => w.hook.timer.Some?
    case ListingServed(k, listing) =>
      k < |w.loads| && w.loads[k].listing == None &&
      forall i :: 0 <= i < |listing.experiments| ==> Current(listing.experiments[i], w.cluster)
    case RunServed(k, i, reply) =>
      k < |w.loads| && w.loads[k].listing.Some? &&
      var asked := Asked(w.loads[k], w.hook.session);
      i < |asked| && i !in w.loads[k].replies &&
      (reply.Some? ==> reply.value.id == asked[i] && Current(reply.value, w.cluster))
    case Answers(k) => k < |w.loads| && Complete(w.loads[k], w.hook.session)
    case Fails(k, _) => k < |w.loads| && w.loads[k].replies == map[]
  }

  function Dropped(loads: seq<Load>, k: nat): seq<Load>
    requires k < |loads|
  {
    loads[..k] + loads[k + 1..]
  }

  function Step(w: World, e: Event): (after: World)
    requires Possible(w, e)
  {
    match e
    case Appears(run) => w.(cluster := w.cluster[run.id := run])
    case Moves(id, status) => w.(cluster := w.cluster[id := w.cluster[id].(status := status)])
    case Renders(launches, ids) =>
      w.(hook := Rendered(w.hook, launches, ids),
         loads := if launches > 0 && NewKey(w, e) then w.loads + [Load(Key(launches, ids), None, map[])] else w.loads)
    case Ticks => w.(loads := w.loads + [Load(w.hook.timer.value, None, map[])])
    case ListingServed(k, listing) =>
      w.(loads := w.loads[k := w.loads[k].(listing := Some(listing))])
    case RunServed(k, i, reply) =>
      w.(loads := w.loads[k := w.loads[k].(replies := w.loads[k].replies[i := reply])])
    case Answers(k) =>
      w.(hook := Answered(w.hook, w.loads[k].listing.value, Replies(w.loads[k], w.hook.session)),
         loads := Dropped(w.loads, k))
    case Fails(k, message) => w.(hook := Failed(w.hook, message), loads := Dropped(w.loads, k))
  }

  predicate CanRun(w: World, es: seq<Event>)
    decreases |es|
  {
    es == [] || (Possible(w, es[0]) && CanRun(Step(w, es[0]), es[1..]))
  }

  function After(w: World, es: seq<Event>): World
    requires CanRun(w, es)
    decreases |es|
  {
    if es == [] then w else After(Step(w, es[0]), es[1..])
  }

  function Start(session: string, launches: nat, ids: seq<string>): World {
    World(map[], Mounted(session, launches, ids),
      if launches > 0 then [Load(Key(launches, ids), None, map[])] else [])
  }

  // --- what is finished is current ---

  /** A record from now or from before: only a status its job can leave can be out of date. */
  predicate Fits(run: Experiment, cluster: map<string, Experiment>) {
    run.id in cluster &&
    run == cluster[run.id].(status := run.status) &&
    (!CanLeave(run.status) ==> run == cluster[run.id])
  }

  predicate AllFit(runs: seq<Experiment>, cluster: map<string, Experiment>) {
    forall run :: run in runs ==> Fits(run, cluster)
  }

  predicate LoadFits(load: Load, session: string, cluster: map<string, Experiment>) {
    (load.listing.Some? ==> AllFit(load.listing.value.experiments, cluster)) &&
    (forall i :: i in load.replies ==>
      load.listing.Some? && i < |Asked(load, session)| &&
      (load.replies[i].Some? ==>
        load.replies[i].value.id == Asked(load, session)[i] && Fits(load.replies[i].value, cluster)))
  }

  predicate Sound(w: World) {
    (forall id :: id in w.cluster ==> w.cluster[id].id == id) &&
    AllFit(w.hook.runs, w.cluster) &&
    (forall k :: 0 <= k < |w.loads| ==> LoadFits(w.loads[k], w.hook.session, w.cluster)) &&
    w.hook.timer == Subscribed(w.hook).timer
  }

  ghost predicate MovesOn(before: map<string, Experiment>, after: map<string, Experiment>) {
    forall run: Experiment :: Fits(run, before) ==> Fits(run, after)
  }

  lemma ClusterMovesOn(w: World, e: Event)
    requires Sound(w) && Possible(w, e)
    ensures MovesOn(w.cluster, Step(w, e).cluster)
  {
  }

  lemma LoadStillFits(load: Load, session: string, before: map<string, Experiment>, after: map<string, Experiment>)
    requires LoadFits(load, session, before) && MovesOn(before, after)
    ensures LoadFits(load, session, after)
  {
    hide Fits, Asked;
  }

  lemma ReadingFits(load: Load, session: string, cluster: map<string, Experiment>)
    requires LoadFits(load, session, cluster) && Complete(load, session)
    ensures Truthful(Asked(load, session), Replies(load, session))
    ensures AllFit(Merged(Mine(load.listing.value.experiments, session), Replies(load, session)), cluster)
  {
    hide Fits, Asked, Merged;
    var mine, replies := Mine(load.listing.value.experiments, session), Replies(load, session);
    MergedHolds(load.listing.value.experiments, session, replies);
    forall run | run in Merged(mine, replies) ensures Fits(run, cluster) {
      if Some(run) in replies {
        var i :| 0 <= i < |replies| && replies[i] == Some(run);
      }
    }
  }

  lemma AnswerFits(w: World, k: nat)
    requires Sound(w) && Possible(w, Answers(k))
    ensures Truthful(Asked(w.loads[k], w.hook.session), Replies(w.loads[k], w.hook.session))
    ensures AllFit(Step(w, Answers(k)).hook.runs, w.cluster)
  {
    hide Fits, Asked, Merged, HasUnfinished;
    ReadingFits(w.loads[k], w.hook.session, w.cluster);
  }

  lemma LoadsStayFit(w: World, e: Event)
    requires Sound(w) && Possible(w, e)
    ensures var after := Step(w, e);
      forall k :: 0 <= k < |after.loads| ==> LoadFits(after.loads[k], after.hook.session, after.cluster)
  {
    hide Missing, Mine, IdsOf, Merged, HasUnfinished;
    ClusterMovesOn(w, e);
    var after := Step(w, e);
    forall k | 0 <= k < |w.loads| ensures LoadFits(w.loads[k], w.hook.session, after.cluster) {
      LoadStillFits(w.loads[k], w.hook.session, w.cluster, after.cluster);
    }
    if e.ListingServed? || e.RunServed? {
      assert LoadFits(after.loads[e.k], w.hook.session, after.cluster);
    }
  }

  lemma StepKeepsSound(w: World, e: Event)
    requires Sound(w) && Possible(w, e)
    ensures Sound(Step(w, e))
  {
    hide LoadFits, HasUnfinished, Merged;
    ClusterMovesOn(w, e);
    LoadsStayFit(w, e);
    if e.Answers? {
      AnswerFits(w, e.k);
    }
  }

  lemma {:induction false} RunKeepsSound(w: World, es: seq<Event>)
    requires Sound(w) && CanRun(w, es)
    ensures Sound(After(w, es))
    decreases |es|
  {
    if es != [] {
      StepKeepsSound(w, es[0]);
      RunKeepsSound(Step(w, es[0]), es[1..]);
    }
  }

  predicate AllCurrent(runs: seq<Experiment>, cluster: map<string, Experiment>) {
    forall run :: run in runs ==> Current(run, cluster)
  }

  lemma StartIsSound(session: string, launches: nat, ids: seq<string>)
    ensures Sound(Start(session, launches, ids))
  {
  }

  /**
   Whatever overlaps with whatever: only statuses that jobs can leave are ever out of date on the card,
   so a card without such a status is up to date, every run on it.
   */
  lemma WhatIsFinishedIsCurrent(session: string, launches: nat, ids: seq<string>, es: seq<Event>)
    requires CanRun(Start(session, launches, ids), es)
    ensures var w := After(Start(session, launches, ids), es);
      AllFit(w.hook.runs, w.cluster) &&
      (!StillGoing(w.hook.runs) ==> AllCurrent(w.hook.runs, w.cluster))
  {
    StartIsSound(session, launches, ids);
    RunKeepsSound(Start(session, launches, ids), es);
    var w := After(Start(session, launches, ids), es);
    if !StillGoing(w.hook.runs) {
      forall run | run in w.hook.runs ensures Current(run, w.cluster) {
        var i :| 0 <= i < |w.hook.runs| && w.hook.runs[i] == run;
        assert !CanLeave(w.hook.runs[i].status);
      }
    }
  }

  /**
   An interval is live just while something is launched and a run on the card has a status its job can
   still leave, and it reads with the key on screen; without one the card of a launch is up to date.
   */
  lemma PollsExactlyWhilePending(session: string, launches: nat, ids: seq<string>, es: seq<Event>)
    requires CanRun(Start(session, launches, ids), es)
    ensures var w := After(Start(session, launches, ids), es);
      Possible(w, Ticks) <==> w.hook.launches > 0 && StillGoing(w.hook.runs)
    ensures var w := After(Start(session, launches, ids), es);
      Possible(w, Ticks) ==> Step(w, Ticks).loads == w.loads + [Load(KeyOf(w.hook), None, map[])]
    ensures var w := After(Start(session, launches, ids), es);
      w.hook.launches > 0 && w.hook.timer == None ==> AllCurrent(w.hook.runs, w.cluster)
  {
    StartIsSound(session, launches, ids);
    RunKeepsSound(Start(session, launches, ids), es);
    UnfinishedIsStillGoing(After(Start(session, launches, ids), es).hook.runs);
    WhatIsFinishedIsCurrent(session, launches, ids, es);
  }

  // --- when polling ends ---

  predicate AllFinished(runs: seq<Experiment>) { forall run :: run in runs ==> !CanLeave(run.status) }

  /** No job can move any more, and no load in flight was served before that. */
  predicate Settled(w: World) {
    (forall id :: id in w.cluster ==> !CanLeave(w.cluster[id].status)) &&
    forall k :: 0 <= k < |w.loads| ==> FinishedLoad(w.loads[k])
  }

  predicate FinishedLoad(load: Load) {
    (load.listing.Some? ==> AllFinished(load.listing.value.experiments)) &&
    forall i :: i in load.replies ==> load.replies[i].Some? ==> !CanLeave(load.replies[i].value.status)
  }

  lemma SettledAnswer(w: World, k: nat)
    requires Settled(w) && Possible(w, Answers(k))
    ensures !StillGoing(Step(w, Answers(k)).hook.runs)
  {
    hide CanLeave, Asked, Merged;
    var load := w.loads[k];
    assert FinishedLoad(load);
    var mine := Mine(load.listing.value.experiments, w.hook.session);
    var replies := Replies(load, w.hook.session);
    var runs := Merged(mine, replies);
    MergedHolds(load.listing.value.experiments, w.hook.session, replies);
    forall i | 0 <= i < |runs| ensures !CanLeave(runs[i].status) {
      assert runs[i] in runs;
      if Some(runs[i]) in replies {
        var j :| 0 <= j < |replies| && replies[j] == Some(runs[i]);
      }
    }
  }

  lemma StepStaysSettled(w: World, e: Event)
    requires Settled(w) && Possible(w, e) && !e.Appears?
    ensures Settled(Step(w, e))
    ensures e.Answers? || !StillGoing(w.hook.runs) ==> !StillGoing(Step(w, e).hook.runs)
  {
    hide Asked, Merged, CanLeave, StillGoing, HasUnfinished;
    var after := Step(w, e);
    if e.ListingServed? || e.RunServed? {
      assert FinishedLoad(after.loads[e.k]);
    }
    if e.Answers? {
      SettledAnswer(w, e.k);
    }
  }

  lemma QuietIsCurrent(w: World)
    requires Sound(w) && !StillGoing(w.hook.runs)
    ensures w.hook.timer == None && AllFinished(w.hook.runs) && AllCurrent(w.hook.runs, w.cluster)
  {
    UnfinishedIsStillGoing(w.hook.runs);
    forall run | run in w.hook.runs ensures !CanLeave(run.status) && Current(run, w.cluster) {
      var i :| 0 <= i < |w.hook.runs| && w.hook.runs[i] == run;
      assert !CanLeave(w.hook.runs[i].status);
    }
  }

  predicate AnyAnswer(es: seq<Event>) { exists i :: 0 <= i < |es| && es[i].Answers? }

  /**
   Once every job has ended and what was read before has been answered, the next answer leaves only
   finished runs and no interval, for good: no run without a new job turns polling on again.
   */
  lemma {:induction false} TheNextAnswerEndsPolling(w: World, es: seq<Event>)
    requires Sound(w) && Settled(w) && CanRun(w, es)
    requires forall i :: 0 <= i < |es| ==> !es[i].Appears?
    requires AnyAnswer(es) || !StillGoing(w.hook.runs)
    ensures var after := After(w, es);
      after.hook.timer == None && AllFinished(after.hook.runs) && AllCurrent(after.hook.runs, after.cluster)
    decreases |es|
  {
    hide Possible, Step, Settled, HasUnfinished, StillGoing, Sound, AllFinished, AllCurrent;
    if es == [] {
      QuietIsCurrent(w);
    } else {
      StepKeepsSound(w, es[0]);
      StepStaysSettled(w, es[0]);
      assert AnyAnswer(es) ==> es[0].Answers? || AnyAnswer(es[1..]) by {
        if i :| 0 <= i < |es| && es[i].Answers? {
          assert i == 0 || es[1..][i - 1].Answers?;
        }
      }
      TheNextAnswerEndsPolling(Step(w, es[0]), es[1..]);
    }
  }

  // --- when the launches are read ---

  /** A load just asked for these ids. */
  predicate Asks(load: Load, ids: seq<string>) {
    load.listing == None && load.replies == map[] && IdsOf(load.key) == ids
  }

  /** Launches are read when the card appears and when they change, and not when it is drawn again. */
  lemma LaunchesAreReadWhenTheyChange(w: World, launches: nat, ids: seq<string>)
    requires AllWords(w.hook.ids) && AllWords(ids)
    ensures var loads := Step(w, Renders(launches, ids)).loads;
      if launches > 0 && (launches != w.hook.launches || ids != w.hook.ids)
      then |loads| == |w.loads| + 1 && loads[..|w.loads|] == w.loads && Asks(loads[|w.loads|], ids)
      else loads == w.loads
    ensures var start := Start(w.hook.session, launches, ids);
      if launches > 0 then |start.loads| == 1 && Asks(start.loads[0], ids) else start.loads == []
  {
    hide Key, IdsOf;
    KeyIsInjective(launches, ids, w.hook.launches, w.hook.ids);
    KeyRoundTrip(launches, ids);
  }

  // --- whether every launch is on the card ---

  predicate CardIsComplete(h: Hook) { forall i :: 0 <= i < |h.ids| ==> h.ids[i] in Ids(h.runs) }

  /** What an answer leaves on the card: what its own listing and reads found, and nothing else. */
  lemma AnAnswerShowsItsOwnReading(w: World, k: nat, id: string)
    requires Sound(w) && Possible(w, Answers(k))
    ensures var load := w.loads[k];
      id in Ids(Step(w, Answers(k)).hook.runs) <==>
        IsListed(load.listing.value.experiments, w.hook.session, id) || IsRead(Replies(load, w.hook.session), id)
  {
    hide Merged, Mine, Missing;
    MergeIsExact(w.loads[k].listing.value.experiments, w.hook.session, Replies(w.loads[k], w.hook.session));
  }

  /** What a load could put on the card if every run it asks for is found: its own ids, and its own listing. */
  predicate Knows(load: Load, session: string, id: string) {
    load.listing.Some? && (id in IdsOf(load.key) || IsListed(load.listing.value.experiments, session, id))
  }

  predicate AllFound(load: Load) { forall i :: i in load.replies ==> load.replies[i].Some? }

  lemma AnAnswerShowsWhatItKnows(w: World, k: nat, id: string)
    requires Sound(w) && Possible(w, Answers(k)) && AllFound(w.loads[k])
    ensures id in Ids(Step(w, Answers(k)).hook.runs) <==> Knows(w.loads[k], w.hook.session, id)
  {
    hide Merged, Mine, IdsOf, Sound;
    var load, session := w.loads[k], w.hook.session;
    AnAnswerShowsItsOwnReading(w, k, id);
    var asked, replies := Asked(load, session), Replies(load, session);
    AsksForTheUnlisted(load.listing.value.experiments, session, IdsOf(load.key), id);
    AnswerFits(w, k);
    if id in asked {
      var i :| 0 <= i < |asked| && asked[i] == id;
      assert replies[i].Some?;
    }
  }

  /**
   With every run found, an answer completes the card exactly if each id on screen is in the key of its
   load or in its listing: for a load from before a launch that is to have been listed already.
   */
  lemma AnAnswerCompletesTheCardExactly(w: World, k: nat)
    requires Sound(w) && Possible(w, Answers(k)) && AllFound(w.loads[k])
    ensures CardIsComplete(Step(w, Answers(k)).hook) <==>
      forall i :: 0 <= i < |w.hook.ids| ==> Knows(w.loads[k], w.hook.session, w.hook.ids[i])
  {
    hide Step, Knows, Sound, AllFound;
    forall i | 0 <= i < |w.hook.ids|
      ensures w.hook.ids[i] in Ids(Step(w, Answers(k)).hook.runs) <==> Knows(w.loads[k], w.hook.session, w.hook.ids[i])
    {
      AnAnswerShowsWhatItKnows(w, k, w.hook.ids[i]);
    }
    assert Step(w, Answers(k)).hook.ids == w.hook.ids by { AnswersKeepIds(w, k); }
  }

  lemma AnswersKeepIds(w: World, k: nat)
    requires Possible(w, Answers(k))
    ensures Step(w, Answers(k)).hook.ids == w.hook.ids && Step(w, Answers(k)).hook.session == w.hook.session
  {
  }

  /** The load that was answered last, at the moment of its answer. */
  function LastAnswered(w: World, es: seq<Event>, last: Option<Load>): Option<Load>
    requires CanRun(w, es)
    decreases |es|
  {
    if es == [] then last
    else LastAnswered(Step(w, es[0]), es[1..], if es[0].Answers? then Some(w.loads[es[0].k]) else last)
  }

  predicate KnownLast(last: Option<Load>, session: string, id: string) {
    last.Some? && Knows(last.value, session, id)
  }

  ghost predicate ShowsWhatIsKnown(w: World, last: Option<Load>) {
    (forall k :: 0 <= k < |w.loads| ==> AllFound(w.loads[k])) &&
    forall id :: id in Ids(w.hook.runs) <==> KnownLast(last, w.hook.session, id)
  }

  lemma StepShowsWhatIsKnown(w: World, e: Event, last: Option<Load>)
    requires Sound(w) && ShowsWhatIsKnown(w, last) && Possible(w, e) && (e.RunServed? ==> e.reply.Some?)
    ensures ShowsWhatIsKnown(Step(w, e), if e.Answers? then Some(w.loads[e.k]) else last)
  {
    hide Asked, Merged, Knows, Sound, HasUnfinished, Key;
    if e.Answers? {
      AnswersKeepIds(w, e.k);
      forall id ensures id in Ids(Step(w, e).hook.runs) <==> Knows(w.loads[e.k], w.hook.session, id) {
        AnAnswerShowsWhatItKnows(w, e.k, id);
      }
    }
  }

  lemma {:induction false} RunShowsWhatIsKnown(w: World, es: seq<Event>, last: Option<Load>)
    requires Sound(w) && ShowsWhatIsKnown(w, last) && CanRun(w, es)
    requires forall i :: 0 <= i < |es| ==> es[i].RunServed? ==> es[i].reply.Some?
    ensures ShowsWhatIsKnown(After(w, es), LastAnswered(w, es, last))
    decreases |es|
  {
    hide Sound, ShowsWhatIsKnown, Step;
    if es != [] {
      StepKeepsSound(w, es[0]);
      StepShowsWhatIsKnown(w, es[0], last);
      RunShowsWhatIsKnown(Step(w, es[0]), es[1..], if es[0].Answers? then Some(w.loads[es[0].k]) else last);
    }
  }

  lemma NothingKnownYet(session: string)
    ensures forall id :: !KnownLast(None, session, id)
  {
  }

  /**
   In every run in which the runs asked for are found: whatever overlapped, the card holds all launches
   exactly if the load answered last knew each of them, by its key or by its listing.
   */
  lemma TheLastAnswerDecides(session: string, launches: nat, ids: seq<string>, es: seq<Event>)
    requires CanRun(Start(session, launches, ids), es)
    requires forall i :: 0 <= i < |es| ==> es[i].RunServed? ==> es[i].reply.Some?
    ensures var w := After(Start(session, launches, ids), es);
      var last := LastAnswered(Start(session, launches, ids), es, None);
      CardIsComplete(w.hook) <==>
        forall i :: 0 <= i < |w.hook.ids| ==> KnownLast(last, w.hook.session, w.hook.ids[i])
  {
    hide KnownLast;
    assert forall id :: !KnownLast(None, session, id) by { NothingKnownYet(session); }
    StartIsSound(session, launches, ids);
    RunShowsWhatIsKnown(Start(session, launches, ids), es, None);
    var w := After(Start(session, launches, ids), es);
    var last := LastAnswered(Start(session, launches, ids), es, None);
    assert ShowsWhatIsKnown(w, last);
    assert forall i :: 0 <= i < |w.hook.ids| ==>
      (w.hook.ids[i] in Ids(w.hook.runs) <==> KnownLast(last, w.hook.session, w.hook.ids[i]));
  }

  /** What the loads have said so far: whether any has, what the last one complained of, and the links. */
  datatype Word = Word(loaded: bool, error: Option<string>, urls: Option<Urls>)

  function WordOf(h: Hook): Word { Word(h.loaded, h.error, h.urls) }

  function Heard(w: World, es: seq<Event>, word: Word): Word
    requires CanRun(w, es)
    decreases |es|
  {
    if es == [] then word
    else
      var next := match es[0]
        case Answers(k) => Word(true, None, Some(w.loads[k].listing.value.urls))
        case Fails(_, message) => Word(true, Some(message), word.urls)
        case _ => word;
      Heard(Step(w, es[0]), es[1..], next)
  }

  /** The card is looking until the first load comes back, and complains of the last one only, over every run. */
  lemma {:induction false} TheCardSaysWhatTheLastLoadSaid(w: World, es: seq<Event>)
    requires CanRun(w, es)
    ensures WordOf(After(w, es).hook) == Heard(w, es, WordOf(w.hook))
    decreases |es|
  {
    hide Possible, Merged, Asked, Key, HasUnfinished;
    if es != [] {
      TheCardSaysWhatTheLastLoadSaid(Step(w, es[0]), es[1..]);
    }
  }

  /** No failed load takes a run off the card or stops its polling. */
  lemma AFailureKeepsTheCard(w: World, k: nat, message: string)
    requires Possible(w, Fails(k, message))
    ensures var h := Step(w, Fails(k, message)).hook; h.runs == w.hook.runs && h.timer == w.hook.timer
  {
  }

  /** The launches change only between loads, their ids are words, and every run asked for is found. */
  predicate Orderly(w: World, e: Event) {
    (NewKey(w, e) ==> w.loads == [] && AllWords(e.ids)) &&
    (e.RunServed? ==> e.reply.Some?) &&
    (e.Renders? ==> AllWords(e.ids))
  }

  predicate OrderlyRun(w: World, es: seq<Event>)
    requires CanRun(w, es)
    decreases |es|
  {
    es == [] || (Orderly(w, es[0]) && OrderlyRun(Step(w, es[0]), es[1..]))
  }

  /** An answer has come since the launches last changed. */
  predicate Read(w: World, es: seq<Event>, read: bool)
    requires CanRun(w, es)
    decreases |es|
  {
    if es == [] then read
    else Read(Step(w, es[0]), es[1..], es[0].Answers? || (read && !NewKey(w, es[0])))
  }

  predicate OneKey(w: World) {
    AllWords(w.hook.ids) &&
    forall k :: 0 <= k < |w.loads| ==>
      w.loads[k].key == KeyOf(w.hook) &&
      forall i :: i in w.loads[k].replies ==> w.loads[k].replies[i].Some?
  }

  lemma StepKeepsOneKey(w: World, e: Event)
    requires Sound(w) && OneKey(w) && Possible(w, e) && Orderly(w, e)
    ensures OneKey(Step(w, e))
  {
    hide Asked, Merged, HasUnfinished, Key;
  }

  lemma TheAnswerCompletesTheCard(w: World, k: nat)
    requires Sound(w) && OneKey(w) && Possible(w, Answers(k))
    ensures CardIsComplete(Step(w, Answers(k)).hook)
  {
    hide Merged, Mine, Key, Sound, IdsOf, AllFit, IsListed;
    KeyRoundTrip(w.hook.launches, w.hook.ids);
    forall i | 0 <= i < |w.hook.ids| ensures w.hook.ids[i] in Ids(Step(w, Answers(k)).hook.runs) {
      AnAnswerShowsWhatItKnows(w, k, w.hook.ids[i]);
    }
  }

  lemma StepKeepsComplete(w: World, e: Event)
    requires CardIsComplete(w.hook) && AllWords(w.hook.ids)
    requires Possible(w, e) && Orderly(w, e) && !e.Answers? && !NewKey(w, e)
    ensures CardIsComplete(Step(w, e).hook)
  {
    hide Key, Merged;
    if e.Renders? {
      KeyIsInjective(w.hook.launches, w.hook.ids, e.launches, e.ids);
    }
  }

  /**
   In orderly runs, once an answer has come since the last launch, every launched run is on the
   card and stays there; and if polling is off, each of them has ended the way the card says.
   */
  lemma {:induction false} TheCardIsComplete(w: World, es: seq<Event>, read: bool)
    requires Sound(w) && OneKey(w) && CanRun(w, es) && OrderlyRun(w, es)
    requires read ==> CardIsComplete(w.hook)
    ensures var after := After(w, es);
      Read(w, es, read) ==> CardIsComplete(after.hook)
    decreases |es|
  {
    hide Possible, Step, Sound, OneKey, CardIsComplete, Orderly, NewKey;
    if es != [] {
      var e := es[0];
      StepKeepsSound(w, e);
      StepKeepsOneKey(w, e);
      if e.Answers? {
        TheAnswerCompletesTheCard(w, e.k);
      } else if read && !NewKey(w, e) {
        assert AllWords(w.hook.ids) by { TheIdsAreWords(w); }
        StepKeepsComplete(w, e);
      }
      TheCardIsComplete(Step(w, e), es[1..], e.Answers? || (read && !NewKey(w, e)));
    }
  }

  lemma TheIdsAreWords(w: World)
    requires OneKey(w)
    ensures AllWords(w.hook.ids)
  {
  }

  predicate HasEnded(id: string, w: World) {
    id in w.cluster && !CanLeave(w.cluster[id].status) && w.cluster[id] in w.hook.runs
  }

  /** A card that has been read since the last launch and polls no more tells how each launch ended. */
  lemma AQuietCardTellsHowEachLaunchEnded(session: string, launches: nat, ids: seq<string>, es: seq<Event>)
    requires AllWords(ids) && CanRun(Start(session, launches, ids), es)
    requires OrderlyRun(Start(session, launches, ids), es) && Read(Start(session, launches, ids), es, false)
    ensures var w := After(Start(session, launches, ids), es);
      w.hook.timer == None && w.hook.launches > 0 ==>
      forall i :: 0 <= i < |w.hook.ids| ==> HasEnded(w.hook.ids[i], w)
  {
    var start := Start(session, launches, ids);
    StartIsSound(session, launches, ids);
    TheCardIsComplete(start, es, false);
    RunKeepsSound(start, es);
    WhatIsFinishedIsCurrent(session, launches, ids, es);
    var w := After(start, es);
    UnfinishedIsStillGoing(w.hook.runs);
    if w.hook.timer == None && w.hook.launches > 0 {
      forall i | 0 <= i < |w.hook.ids| ensures HasEnded(w.hook.ids[i], w) {
        assert w.hook.ids[i] in Ids(w.hook.runs);
        var j :| 0 <= j < |w.hook.runs| && w.hook.runs[j].id == w.hook.ids[i];
        assert w.hook.runs[j] in w.hook.runs;
        assert !CanLeave(w.hook.runs[j].status);
      }
    }
  }

  // --- a load that is overtaken ---

  lemma {:induction false} RunBoth(w: World, es: seq<Event>, fs: seq<Event>)
    requires CanRun(w, es) && CanRun(After(w, es), fs)
    ensures CanRun(w, es + fs) && After(w, es + fs) == After(After(w, es), fs)
    decreases |es|
  {
    if es == [] {
      assert es + fs == fs;
    } else {
      assert (es + fs)[1..] == es[1..] + fs;
      RunBoth(Step(w, es[0]), es[1..], fs);
    }
  }

  lemma RunStep(w: World, es: seq<Event>, e: Event)
    requires CanRun(w, es) && Possible(After(w, es), e)
    ensures CanRun(w, es + [e]) && After(w, es + [e]) == Step(After(w, es), e)
  {
    RunBoth(w, es, [e]);
  }

  const A := "run:a"
  const B := "run:b"

  lemma TheirIdsAreWords()
    ensures AllWords([A]) && AllWords([A, B]) && A != B
  {
    assert A[4] != B[4];
  }

  function First(session: string): Experiment { Experiment(A, session, 1, SUCCEEDED) }

  function Second(session: string): Experiment { Experiment(B, session, 2, RUNNING) }

  /** Both launches are being read, the first of them since before there was a second. */
  function Overlapped(session: string, urls: Urls): World {
    var a, b := First(session), Second(session);
    World(
      map[A := a, B := b],
      Hook(session, 2, [A, B], [], None, None, false, None),
      [Load(Key(1, [A]), Some(Listing([a], urls)), map[]), Load(Key(2, [A, B]), Some(Listing([b, a], urls)), map[])])
  }

  function TwoLaunches(session: string, urls: Urls): seq<Event> {
    var a, b := First(session), Second(session);
    [Appears(a), ListingServed(0, Listing([a], urls)), Appears(b), Renders(2, [A, B]),
     ListingServed(1, Listing([b, a], urls))]
  }

  lemma RunPrefix(w: World, es: seq<Event>, k: nat)
    requires k < |es| && CanRun(w, es[..k]) && Possible(After(w, es[..k]), es[k])
    ensures CanRun(w, es[..k + 1]) && After(w, es[..k + 1]) == Step(After(w, es[..k]), es[k])
  {
    RunStep(w, es[..k], es[k]);
    assert es[..k + 1] == es[..k] + [es[k]];
  }

  lemma TwoLaunchesOverlap(session: string, urls: Urls)
    ensures CanRun(Start(session, 1, [A]), TwoLaunches(session, urls))
    ensures After(Start(session, 1, [A]), TwoLaunches(session, urls)) == Overlapped(session, urls)
  {
    hide Key, IdsOf, CanRun, After;
    var w, es := Start(session, 1, [A]), TwoLaunches(session, urls);
    var a, b := First(session), Second(session);
    var one, both := Listing([a], urls), Listing([b, a], urls);
    TheirIdsAreWords();
    KeyIsInjective(1, [A], 2, [A, B]);
    NoEvent(w);
    assert es[..0] == [];
    RunPrefix(w, es, 0);
    var w1 := w.(cluster := map[A := a]);
    assert After(w, es[..1]) == w1;
    RunPrefix(w, es, 1);
    var w2 := w1.(loads := [Load(Key(1, [A]), Some(one), map[])]);
    assert After(w, es[..2]) == w2;
    RunPrefix(w, es, 2);
    var w3 := w2.(cluster := map[A := a, B := b]);
    assert After(w, es[..3]) == w3;
    RunPrefix(w, es, 3);
    var w4 := w3.(
      hook := w.hook.(launches := 2, ids := [A, B]),
      loads := w2.loads + [Load(Key(2, [A, B]), None, map[])]);
    assert After(w, es[..4]) == w4;
    RunPrefix(w, es, 4);
    assert After(w, es[..5]) == Overlapped(session, urls);
    assert es[..5] == es;
  }

  lemma NoEvent(w: World)
    ensures CanRun(w, []) && After(w, []) == w
  {
  }

  lemma NoneMissing(mine: seq<Experiment>, ids: seq<string>)
    requires forall id :: id in ids ==> id in Ids(mine)
    ensures Missing(mine, ids) == []
  {
    NonePicked(ids, id => id !in Ids(mine));
  }

  lemma {:induction false} NonePicked(ids: seq<string>, pick: string -> bool)
    requires forall id :: id in ids ==> !pick(id)
    ensures Kept(ids, pick) == []
  {
    if ids != [] {
      assert ids[0] in ids;
      NonePicked(ids[1..], pick);
    }
  }

  lemma BothAreListed(session: string, urls: Urls)
    ensures var w := Overlapped(session, urls);
      Asked(w.loads[0], session) == [] && Asked(w.loads[1], session) == [] &&
      Mine(w.loads[0].listing.value.experiments, session) == [First(session)]
  {
    hide Key, IdsOf, Kept;
    TheirIdsAreWords();
    KeyRoundTrip(1, [A]);
    KeyRoundTrip(2, [A, B]);
    var a, b := First(session), Second(session);
    KeptAll([a], (run: Experiment) => run.session == session);
    KeptAll([b, a], (run: Experiment) => run.session == session);
    assert Ids([a])[0] == A && Ids([b, a])[0] == B && Ids([b, a])[1] == A;
    NoneMissing([a], [A]);
    NoneMissing([b, a], [A, B]);
  }

  lemma OneMerged(run: Experiment)
    ensures Merged([run], []) == [run]
  {
    assert [run] + Readable([]) == [run];
    assert [run][1..] == [];
    assert Sorted([run], SubmittedAt) == Inserted(run, Sorted([], SubmittedAt), SubmittedAt);
    assert Inserted(run, [], SubmittedAt) == [run] + [];
  }

  /**
   Without that order an older answer can take a launch off the card: the first launch is read
   before the second one starts, and that reading answers last. The second run is still running, and
   nothing reads it again.
   */
  lemma AnOlderAnswerDropsALaunch(session: string, urls: Urls)
    ensures var start := Start(session, 1, [A]);
      var es := TwoLaunches(session, urls) + [Answers(1)] + [Answers(0)];
      CanRun(start, es) &&
      var w := After(start, es);
      w.hook.ids == [A, B] && B in w.cluster && w.cluster[B].status == RUNNING &&
      B !in Ids(w.hook.runs) && w.hook.timer == None && w.loads == []
  {
    hide Key, IdsOf, CanRun, After, Asked, Mine;
    var start, es := Start(session, 1, [A]), TwoLaunches(session, urls);
    TwoLaunchesOverlap(session, urls);
    BothAreListed(session, urls);
    var w := Overlapped(session, urls);
    RunStep(start, es, Answers(1));
    var u := Step(w, Answers(1));
    assert u.loads == [w.loads[0]];
    RunStep(start, es + [Answers(1)], Answers(0));
    var replies := Replies(w.loads[0], session);
    assert replies == [];
    OneMerged(First(session));
    TheirIdsAreWords();
  }
}
