/**
 A save and a selection that overlap. `save` puts back the file it captured without asking whether
 another one was selected since; this module says exactly when that does no harm, whatever order the
 answers come in, and gives the runs on which it does.
 */
module EditorMoves {
  import opened CodePane
  import opened EditorSafety
  import opened EditorSelection
  import opened Fifo
  import opened Wrappers

  // --- undisturbed runs ---

  /** No further save, and no further move of the selection: typing, calls, new statuses and answers. */
  predicate Undisturbing(s: System, e: Event) {
    !e.Save? && (e.Show? ==> OpenKey(e.props) == OpenKey(s.pane.props))
  }

  ghost predicate UndisturbedRun(s: System, run: seq<Event>)
    requires Possible(s, run)
    decreases |run|
  {
    run == [] || (Undisturbing(s, run[0]) && UndisturbedRun(Step(s, run[0]), run[1..]))
  }

  ghost predicate Reaches(s: System, run: seq<Event>, t: System) {
    Possible(s, run) && UndisturbedRun(s, run) && Final(s, run) == t
  }

  /** Whatever comes in, in whatever order: the selection is loading, or the right file is on screen. */
  ghost predicate AlwaysRight(s: System) {
    forall run, t :: Reaches(s, run, t) ==> Loading(t) || Right(t.pane)
  }

  lemma ReachesItself(s: System)
    ensures Reaches(s, [], s)
  {
  }

  lemma ReachesBefore(s: System, e: Event, run: seq<Event>, t: System)
    requires Enabled(s, e) && Undisturbing(s, e) && Reaches(Step(s, e), run, t)
    ensures Reaches(s, [e] + run, t)
  {
    hide Enabled, Step;
    assert ([e] + run)[0] == e && ([e] + run)[1..] == run;
  }

  lemma {:induction false} ReachesThrough(s: System, run: seq<Event>, t: System, more: seq<Event>, u: System)
    requires Reaches(s, run, t) && Reaches(t, more, u)
    ensures Reaches(s, run + more, u)
    decreases |run|
  {
    hide Enabled, Step, Undisturbing;
    if run == [] {
      assert run + more == more;
    } else {
      assert (run + more)[0] == run[0] && (run + more)[1..] == run[1..] + more;
      ReachesThrough(Step(s, run[0]), run[1..], t, more, u);
    }
  }

  lemma ReachesOn(s: System, run: seq<Event>, t: System, e: Event)
    requires Reaches(s, run, t) && Enabled(t, e) && Undisturbing(t, e)
    ensures Reaches(s, run + [e], Step(t, e))
  {
    ReachesItself(Step(t, e));
    ReachesBefore(t, e, [], Step(t, e));
    assert [e] + [] == [e];
    ReachesThrough(s, run, t, [e], Step(t, e));
  }

  // --- answers that refuse ---

  const REFUSED := Refused(500, "")

  /** What a refusal leaves alone. */
  predicate Unmoved(p: Pane, q: Pane) {
    q.props == p.props && q.draft == p.draft && q.openRun == p.openRun && q.read == p.read && q.rereadRun == p.rereadRun
  }

  lemma RefusedStep(s: System, k: nat)
    requires MayAnswer(s.pending, k)
    ensures Enabled(s, Answer(k, REFUSED))
    ensures var t := Step(s, Answer(k, REFUSED)); t.pending == Without(s.pending, k) && Unmoved(s.pane, t.pane)
  {
    hide Rendered, IsDeleted, MonacoLanguage;
    var p, r := s.pane, s.pending[k];
    assert Without(s.pending, k) + Sent(p.props.workbench, []) == Without(s.pending, k);
    match r.op
    case OpenRead(_, run) => OnlyMounts(p, OpenAnswered(p, r.workbench, run, REFUSED));
    case ReRead(_, read, run) => OnlyMounts(p, RereadAnswered(p, r.workbench, read, run, REFUSED));
    case CommittedRead(_, read, run) => OnlyMounts(p, CommittedAnswered(p, read, run, REFUSED));
    case Write(file, draft) => OnlyMounts(p, WriteAnswered(p, file, draft, REFUSED));
    case Bar(_) =>
  }

  /** The first k calls can all be refused. */
  lemma {:induction false} RefuseAhead(s: System, k: nat) returns (run: seq<Event>, t: System)
    requires k <= |s.pending|
    ensures Reaches(s, run, t) && t.pending == s.pending[k..] && Unmoved(s.pane, t.pane)
    decreases k
  {
    hide Step, Enabled, Reaches;
    if k == 0 {
      ReachesItself(s);
      run, t := [], s;
      assert s.pending[0..] == s.pending;
    } else {
      RefusedStep(s, 0);
      var s1 := Step(s, Answer(0, REFUSED));
      assert s1.pending == s.pending[1..];
      run, t := RefuseAhead(s1, k - 1);
      ReachesBefore(s, Answer(0, REFUSED), run, t);
      run := [Answer(0, REFUSED)] + run;
    }
  }

  /** Of the first n calls, those of other workbenches can all be refused while the rest wait. */
  lemma {:induction false} RefuseOthers(s: System, wb: string, i: nat, n: nat)
    returns (run: seq<Event>, t: System, left: nat)
    requires i <= n <= |s.pending| && forall j :: 0 <= j < i ==> s.pending[j].workbench == wb
    ensures Reaches(s, run, t) && Unmoved(s.pane, t.pane)
    ensures i <= left <= |t.pending| && t.pending[left..] == s.pending[n..] && t.pending[..i] == s.pending[..i]
    ensures forall j :: 0 <= j < left ==> t.pending[j].workbench == wb
    ensures forall r :: r in t.pending ==> r in s.pending
    decreases n - i
  {
    hide Step, Enabled, Reaches;
    if i == n {
      ReachesItself(s);
      run, t, left := [], s, n;
    } else if s.pending[i].workbench == wb {
      run, t, left := RefuseOthers(s, wb, i + 1, n);
      assert t.pending[..i] == t.pending[..i + 1][..i] && s.pending[..i] == s.pending[..i + 1][..i];
    } else {
      RefusedStep(s, i);
      var s1 := Step(s, Answer(i, REFUSED));
      assert s1.pending[..i] == s.pending[..i] && s1.pending[n - 1..] == s.pending[n..];
      WithoutIsPart(s.pending, i);
      run, t, left := RefuseOthers(s1, wb, i, n - 1);
      ReachesBefore(s, Answer(i, REFUSED), run, t);
      run := [Answer(i, REFUSED)] + run;
    }
  }

  /** A save answered: the file it captured is on screen, over whatever the draft is by then. */
  lemma PutBackFacts(s: System, k: nat)
    requires Enabled(s, Answer(k, Done)) && s.pending[k].op.Write?
    ensures var w, t := s.pending[k].op, Step(s, Answer(k, Done));
            && t.pending == Without(s.pending, k) && Unmoved(s.pane, t.pane)
            && t.pane.file == Some(w.file.(text := w.draft))
  {
    hide Rendered, IsDeleted, MonacoLanguage;
    OnlyMounts(s.pane, WriteAnswered(s.pane, s.pending[k].op.file, s.pending[k].op.draft, Done));
    assert Without(s.pending, k) + Sent(s.pane.props.workbench, []) == Without(s.pending, k);
  }

  // --- moving the selection during a save ---

  lemma {:induction false} UndisturbedIsCareful(s: System, run: seq<Event>)
    requires Possible(s, run) && UndisturbedRun(s, run)
    ensures CarefulRun(s, run)
    decreases |run|
  {
    if run != [] {
      UndisturbedIsCareful(Step(s, run[0]), run[1..]);
    }
  }

  lemma SelectedIsAlwaysRight(s: System, path: Path)
    requires Sound(s) && Selected(s, path)
    ensures AlwaysRight(s)
  {
    forall run, t | Reaches(s, run, t) ensures Loading(t) || Right(t.pane) {
      UndisturbedIsCareful(s, run);
      var path' := RunKeepsSelected(s, run, path);
    }
  }

  /** The save can be answered when nothing else of the new selection is out, and puts its file back. */
  lemma AMoveCanEndWrong(s: System, props: Props, path: Path) returns (run: seq<Event>, t: System)
    requires Sound(s) && Selected(s, path) && Writing(s) && OpenKey(props) != OpenKey(s.pane.props)
    requires !MovesByReading(s.pane, props)
    ensures Reaches(Step(s, Show(props)), run, t) && !Loading(t) && !Right(t.pane)
  {
    hide Step, Reaches, IsDeleted;
    MoveFacts(s, props);
    var u := Step(s, Show(props));
    var k :| 0 <= k < |s.pending| && s.pending[k].op.Write?;
    var w := s.pending[k];
    assert w in s.pending && u.pending[k] == w;
    run, t := RefuseAhead(u, k);
    assert t.pending[0] == w && forall r :: r in t.pending ==> r in u.pending;
    var more, v, left := RefuseOthers(t, w.workbench, 1, |t.pending|);
    ReachesThrough(u, run, t, more, v);
    assert v.pending[0] == v.pending[..1][0] == t.pending[..1][0] == w;
    DoneIsEnabled(v, 0);
    PutBackFacts(v, 0);
    ReachesOn(u, run + more, v, Answer(0, Done));
    run, t := run + more + [Answer(0, Done)], Step(v, Answer(0, Done));
    forall r | r in t.pending ensures !Live(t.pane, r.op) {
      WithoutIsPart(v.pending, 0);
      assert r in v.pending && r in u.pending;
      var j :| 0 <= j < |v.pending| && v.pending[j] == r;
      assert r.workbench == w.workbench;
    }
  }

  lemma DoneIsEnabled(s: System, k: nat)
    requires MayAnswer(s.pending, k) && s.pending[k].op.Write?
    ensures Enabled(s, Answer(k, Done)) && Undisturbing(s, Answer(k, Done))
  {
  }

  /** Any state a careful run reaches. */
  ghost predicate Reached(start: Props, before: seq<Event>, s: System) {
    Possible(Start(start), before) && CarefulRun(Start(start), before) && Final(Start(start), before) == s
  }

  lemma ReachedIsSelected(start: Props, before: seq<Event>, s: System) returns (path: Path)
    requires Reached(start, before, s)
    ensures Sound(s) && Selected(s, path)
  {
    StartIsSound(start);
    StartIsSelected(start);
    RunKeepsSound(Start(start), before);
    path := RunKeepsSelected(Start(start), before, start.selected);
  }

  /**
   A save is in flight when the selection moves, or the selected file changes its state. With no
   further save or move, every order of the outstanding answers leaves the right file on screen if
   and only if the same workbench has to be read for the new selection: its queue then answers the
   save first. No selection, a deleted file and another workbench all let the save come last.
   */
  lemma AMoveDuringASaveIsRightExactly(start: Props, before: seq<Event>, s: System, props: Props)
    requires Reached(start, before, s) && Writing(s) && OpenKey(props) != OpenKey(s.pane.props)
    ensures AlwaysRight(Step(s, Show(props))) <==> MovesByReading(s.pane, props)
  {
    hide Reached, Step, IsDeleted, AlwaysRight, Loading, Writing, OpenKey, MovesByReading;
    var path := ReachedIsSelected(start, before, s);
    assert Enabled(s, Show(props));
    StepKeepsSound(s, Show(props));
    if MovesByReading(s.pane, props) {
      assert Careful(s, Show(props));
      var path' := StepKeepsSelected(s, Show(props), path);
      SelectedIsAlwaysRight(Step(s, Show(props)), path');
    } else {
      var run, t := AMoveCanEndWrong(s, props, path);
      WrongOnce(Step(s, Show(props)), run, t);
    }
  }

  lemma WrongOnce(s: System, run: seq<Event>, t: System)
    requires Reaches(s, run, t) && !Loading(t) && !Right(t.pane)
    ensures !AlwaysRight(s)
  {
  }

  // --- saving while a selection loads ---

  /** The file on screen can be saved, and saving it asks for a write. */
  predicate CanBeSaved(p: Pane) { CanSave(p) && p.file.Some? && !Locked(p.file.value) }

  /** A re-read of what is on screen is out to another workbench, and would be listened to. */
  ghost predicate Stray(s: System) {
    exists r :: r in s.pending && IsStray(s.pane, r)
  }

  predicate IsStray(p: Pane, r: Pending<Request>) {
    r.op.ReRead? && r.op.read == p.read && r.op.run == p.rereadRun && r.workbench != p.props.workbench
  }

  /** The file is the selected one, and so is what every save and every re-read that counts is about. */
  ghost predicate AtHome(s: System) {
    var p := s.pane;
    && p.props.selected != "" && !IsDeleted(p.props) && Right(p)
    && forall r :: r in s.pending ==> IsAtHome(p, r)
  }

  predicate IsAtHome(p: Pane, r: Pending<Request>) {
    match r.op
    case OpenRead(path, run) =>
      run <= p.openRun && (run == p.openRun ==> path == p.props.selected && r.workbench == p.props.workbench)
    case ReRead(path, read, run) =>
      read <= p.read && run <= p.rereadRun &&
      (read == p.read && run == p.rereadRun ==> path == p.props.selected && r.workbench == p.props.workbench)
    case Write(file, _) => file.path == p.props.selected && file.origin == p.props.workbench && !file.deleted
    case _ => true
  }

  /** The numbers a re-read carries are of renders that have been. */
  ghost predicate RereadsKnown(s: System) {
    forall r :: r in s.pending && r.op.ReRead? ==> r.op.run <= s.pane.rereadRun
  }

  lemma RenderKeepsRereadsKnown(p: Pane, x: Pane, pending: seq<Pending<Request>>)
    requires RereadsKnown(System(x, pending))
    ensures RereadsKnown(After(Rendered(p, x), pending))
  {
    hide Rendered;
    RenderedFrame(p, x);
    RenderedIssues(p, x);
    QueuedAfter(Rendered(p, x), pending);
  }

  lemma StepKeepsRereadsKnown(s: System, e: Event)
    requires RereadsKnown(s) && Enabled(s, e)
    ensures RereadsKnown(Step(s, e))
  {
    hide Rendered, OpenAnswered, CommittedAnswered, WriteAnswered;
    var p := s.pane;
    match e
    case Show(props) => RenderKeepsRereadsKnown(p, p.(props := props), s.pending);
    case Type(text) =>
      RenderKeepsRereadsKnown(p, p.(draft := text, editor := Some(p.editor.value.(text := text))), s.pending);
    case Save =>
      RenderedIssues(p, p.(saving := true, error := None));
      RenderedFrame(p, p.(saving := true, error := None));
      QueuedAfter(Saved(p), s.pending);
    case Ask(call) => QueuedAfter(Turn(p, [Bar(call)]), s.pending);
    case Answer(k, reply) => AnswerKeepsRereadsKnown(s, k, reply);
  }

  lemma AnswerKeepsRereadsKnown(s: System, k: nat, reply: Reply)
    requires RereadsKnown(s) && Enabled(s, Answer(k, reply))
    ensures RereadsKnown(Step(s, Answer(k, reply)))
  {
    hide Rendered;
    var p, r, rest := s.pane, s.pending[k], Without(s.pending, k);
    WithoutIsPart(s.pending, k);
    match r.op
    case OpenRead(_, run) => RenderKeepsRereadsKnown(p, OpenAnswered(p, r.workbench, run, reply), rest);
    case ReRead(_, read, run) => RenderKeepsRereadsKnown(p, RereadAnswered(p, r.workbench, read, run, reply), rest);
    case CommittedRead(_, read, run) => RenderKeepsRereadsKnown(p, CommittedAnswered(p, read, run, reply), rest);
    case Write(file, draft) => RenderKeepsRereadsKnown(p, WriteAnswered(p, file, draft, reply), rest);
    case Bar(_) => assert rest + Sent(p.props.workbench, []) == rest;
  }

  lemma {:induction false} RunKeepsRereadsKnown(s: System, run: seq<Event>)
    requires RereadsKnown(s) && Possible(s, run)
    ensures RereadsKnown(Final(s, run))
    decreases |run|
  {
    hide Enabled, Step, RereadsKnown;
    if run != [] {
      StepKeepsRereadsKnown(s, run[0]);
      RunKeepsRereadsKnown(Step(s, run[0]), run[1..]);
    }
  }

  lemma StartsKnown(props: Props)
    ensures RereadsKnown(Start(props))
  {
  }

  // What stays at home.

  lemma RenderStaysHome(p: Pane, x: Pane, pending: seq<Pending<Request>>)
    requires AtHome(System(x, pending)) && OpenKey(x.props) == OpenKey(p.props)
    ensures AtHome(After(Rendered(p, x), pending))
  {
    hide Rendered, IsDeleted;
    RenderedFrame(p, x);
    RenderedIssues(p, x);
    QueuedAfter(Rendered(p, x), pending);
    var t := After(Rendered(p, x), pending);
    forall r | r in t.pending ensures IsAtHome(t.pane, r) {
      assert r in pending ==> IsAtHome(x, r);
    }
  }

  lemma StepStaysHome(s: System, e: Event)
    requires AtHome(s) && Enabled(s, e) && Undisturbing(s, e)
    ensures AtHome(Step(s, e))
  {
    hide Rendered, IsDeleted;
    var p := s.pane;
    match e
    case Show(props) => RenderStaysHome(p, p.(props := props), s.pending);
    case Type(text) => RenderStaysHome(p, p.(draft := text, editor := Some(p.editor.value.(text := text))), s.pending);
    case Ask(call) => QueuedAfter(Turn(p, [Bar(call)]), s.pending);
    case Answer(k, reply) => AnswerStaysHome(s, k, reply);
  }

  lemma AnswerStaysHome(s: System, k: nat, reply: Reply)
    requires AtHome(s) && Enabled(s, Answer(k, reply))
    ensures AtHome(Step(s, Answer(k, reply)))
  {
    hide Rendered, IsDeleted;
    var p, r, rest := s.pane, s.pending[k], Without(s.pending, k);
    assert r in s.pending && IsAtHome(p, r);
    WithoutIsPart(s.pending, k);
    match r.op
    case OpenRead(_, run) => RenderStaysHome(p, OpenAnswered(p, r.workbench, run, reply), rest);
    case ReRead(_, read, run) => RenderStaysHome(p, RereadAnswered(p, r.workbench, read, run, reply), rest);
    case CommittedRead(_, read, run) => RenderStaysHome(p, CommittedAnswered(p, read, run, reply), rest);
    case Write(file, draft) => RenderStaysHome(p, WriteAnswered(p, file, draft, reply), rest);
    case Bar(_) => assert rest + Sent(p.props.workbench, []) == rest;
  }

  lemma {:induction false} RunStaysHome(s: System, run: seq<Event>)
    requires AtHome(s) && Possible(s, run) && UndisturbedRun(s, run)
    ensures AtHome(Final(s, run))
    decreases |run|
  {
    hide Enabled, Step, AtHome, Undisturbing;
    if run != [] {
      StepStaysHome(s, run[0]);
      RunStaysHome(Step(s, run[0]), run[1..]);
    }
  }

  lemma SavedAtHome(s: System, path: Path)
    requires Selected(s, path) && RereadsKnown(s) && CanBeSaved(s.pane) && Right(s.pane) && !Stray(s)
    ensures AtHome(Step(s, Save))
  {
    hide Step, IsDeleted;
    SaveFactsInFull(s);
    var t := Step(s, Save);
    forall r | r in t.pending ensures IsAtHome(t.pane, r) {
      if r in s.pending {
        assert !IsStray(s.pane, r);
        assert r.op.OpenRead? && r.op.run == s.pane.openRun ==> Live(s.pane, r.op);
      }
    }
  }

  lemma AtHomeIsRight(s: System)
    requires AtHome(s)
    ensures Right(s.pane)
  {
  }

  // What can go wrong.

  /** Every call in front of the save is refused, the awaited one too: the save puts a wrong file back. */
  lemma ASaveOfAnotherFileCanEndWrong(s: System) returns (run: seq<Event>, t: System)
    requires CanBeSaved(s.pane) && !Right(s.pane)
    ensures Reaches(Step(s, Save), run, t) && !Loading(t) && !Right(t.pane)
  {
    hide Step, Reaches, IsDeleted;
    SaveFactsInFull(s);
    var u := Step(s, Save);
    run, t := RefuseAhead(u, |s.pending|);
    assert t.pending == [u.pending[|s.pending|]];
    DoneIsEnabled(t, 0);
    PutBackFacts(t, 0);
    ReachesOn(u, run, t, Answer(0, Done));
    assert Without(t.pending, 0) == [];
    run, t := run + [Answer(0, Done)], Step(t, Answer(0, Done));
  }

  /** The answer to a stray re-read: another text. */
  function Elsewhere(p: Pane, r: Request): Reply
    requires r.ReRead?
  {
    Content(Loaded(r.path, p.draft + "!", false, false, None))
  }

  /** A re-read that counts brings another workbench's text on screen, over a file without unsaved edits. */
  lemma StrayAnswered(s: System, k: nat)
    requires MayAnswer(s.pending, k) && IsStray(s.pane, s.pending[k])
    requires s.pane.file.Some? && s.pane.draft == s.pane.file.value.text
    requires forall r :: r in s.pending ==> !Live(s.pane, r.op)
    ensures var e := Answer(k, Elsewhere(s.pane, s.pending[k].op));
            && Enabled(s, e) && Undisturbing(s, e)
            && var t := Step(s, e); !Loading(t) && !Right(t.pane)
  {
    hide Rendered, IsDeleted;
    var p, r := s.pane, s.pending[k];
    var reply := Elsewhere(p, r.op);
    var x := RereadAnswered(p, r.workbench, r.op.read, r.op.run, reply);
    assert |p.draft + "!"| != |p.draft|;
    assert x.file == Some(Fresh(reply.loaded, r.workbench));
    RenderedFrame(p, x);
    RenderedIssues(p, x);
    WithoutIsPart(s.pending, k);
    QueuedAfter(Rendered(p, x), Without(s.pending, k));
  }

  /** What can be refused around the first call of a workbench and the last call of all. */
  lemma RefuseBetween(u: System, j: nat, wb: string) returns (run: seq<Event>, v: System)
    requires j < |u.pending| - 1 && u.pending[j].workbench == wb
    ensures Reaches(u, run, v) && Unmoved(u.pane, v.pane)
    ensures |v.pending| >= 2 && v.pending[0] == u.pending[j] && v.pending[|v.pending| - 1] == u.pending[|u.pending| - 1]
    ensures forall i :: 0 <= i < |v.pending| - 1 ==> v.pending[i].workbench == wb
    ensures forall q :: q in v.pending ==> q in u.pending
  {
    hide Reaches;
    var n := |u.pending| - 1;
    var t, more, left;
    run, t := RefuseAhead(u, j);
    more, v, left := RefuseOthers(t, wb, 1, n - j);
    ReachesThrough(u, run, t, more, v);
    run := run + more;
    assert v.pending[0] == v.pending[..1][0] == t.pending[..1][0];
    assert |v.pending[left..]| == |t.pending[n - j..]| == 1;
    assert v.pending[left] == v.pending[left..][0] == t.pending[n - j..][0];
  }

  /** Everything else is refused, the save is answered, and then the stray re-read. */
  lemma ASaveBesideAStrayCanEndWrong(s: System, path: Path) returns (run: seq<Event>, t: System)
    requires Selected(s, path) && CanBeSaved(s.pane) && Stray(s)
    ensures Reaches(Step(s, Save), run, t) && !Loading(t) && !Right(t.pane)
  {
    hide Step, Reaches, IsDeleted, Selected;
    SaveFactsInFull(s);
    var u, n := Step(s, Save), |s.pending|;
    var r :| r in s.pending && IsStray(s.pane, r);
    var j :| 0 <= j < n && s.pending[j] == r;
    var v;
    run, v := RefuseBetween(u, j, r.workbench);
    var last := |v.pending| - 1;
    DoneIsEnabled(v, last);
    PutBackFacts(v, last);
    ReachesOn(u, run, v, Answer(last, Done));
    var y := Step(v, Answer(last, Done));
    assert y.pending == v.pending[..last];
    assert OpensMatch(s) by { SelectedMatches(s, path); }
    NoneAwaited(s, u, y, r.workbench);
    StrayAnswered(y, 0);
    var e := Answer(0, Elsewhere(y.pane, r.op));
    ReachesOn(u, run + [Answer(last, Done)], y, e);
    run, t := run + [Answer(last, Done)] + [e], Step(y, e);
  }

  lemma SelectedMatches(s: System, path: Path)
    requires Selected(s, path)
    ensures OpensMatch(s)
  {
  }

  /** What is left is of another workbench, so the selection waits for none of it. */
  lemma NoneAwaited(s: System, u: System, y: System, wb: string)
    requires OpensMatch(s) && Unmoved(s.pane, y.pane) && wb != s.pane.props.workbench
    requires |u.pending| == |s.pending| + 1 && u.pending[..|s.pending|] == s.pending && u.pending[|s.pending|].op.Write?
    requires forall q :: q in y.pending ==> q in u.pending
    requires forall i :: 0 <= i < |y.pending| ==> y.pending[i].workbench == wb
    ensures forall q :: q in y.pending ==> !Live(y.pane, q.op)
  {
    assert u.pending == s.pending + [u.pending[|s.pending|]];
    forall q | q in y.pending ensures !Live(y.pane, q.op) {
      assert q in s.pending || q.op.Write?;
    }
  }

  /**
   A save is made, perhaps while a selection loads. With no further save or move, every order of the
   outstanding answers leaves the right file on screen if and only if the file saved is the selected
   one and no re-read of it is out to another workbench.
   */
  lemma ASaveIsRightExactly(start: Props, before: seq<Event>, s: System)
    requires Reached(start, before, s) && CanBeSaved(s.pane)
    ensures AlwaysRight(Step(s, Save)) <==> Right(s.pane) && !Stray(s)
  {
    hide Step, AlwaysRight, Stray, Right, AtHome;
    var path := ReachedIsSelected(start, before, s);
    StartsKnown(start);
    RunKeepsRereadsKnown(Start(start), before);
    if !Right(s.pane) {
      var run, t := ASaveOfAnotherFileCanEndWrong(s);
      WrongOnce(Step(s, Save), run, t);
    } else if Stray(s) {
      var run, t := ASaveBesideAStrayCanEndWrong(s, path);
      WrongOnce(Step(s, Save), run, t);
    } else {
      SavedAtHome(s, path);
      AtHomeIsAlwaysRight(Step(s, Save));
    }
  }

  lemma AtHomeIsAlwaysRight(s: System)
    requires AtHome(s)
    ensures AlwaysRight(s)
  {
    hide AtHome, Right;
    forall run, t | Reaches(s, run, t) ensures Loading(t) || Right(t.pane) {
      RunStaysHome(s, run);
      AtHomeIsRight(t);
    }
  }

  /** Once the selection has loaded, a save is always right; while another file loads, never. */
  lemma ASaveMustWaitForTheSelection(start: Props, before: seq<Event>, s: System)
    requires Reached(start, before, s) && CanBeSaved(s.pane)
    ensures !Loading(s) ==> AlwaysRight(Step(s, Save))
    ensures Loading(s) && s.pane.file.value.path != s.pane.props.selected ==> !AlwaysRight(Step(s, Save))
  {
    hide Step, AlwaysRight, Reached;
    var path := ReachedIsSelected(start, before, s);
    ASaveIsRightExactly(start, before, s);
  }
}
