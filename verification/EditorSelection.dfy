/**
 Which file is on screen, and which checkout a save reaches.

 `save` puts back the file it captured without asking whether another one was selected
 since. That is harmless as long as two things hold, and this module says which: nothing
 is saved while a selection is still loading, and while a save is in flight the selection
 moves only to a file of the same workbench that has to be read. Under them the queue's
 order does the rest. Without either, the screen ends up wrong.
 */
module EditorSelection {
  import opened CodePane
  import opened EditorSafety
  import opened Fifo
  import opened Wrappers

  /** The selection on screen waits for its answer. */
  ghost predicate Loading(s: System) {
    exists r :: r in s.pending && Live(s.pane, r.op)
  }

  ghost predicate Writing(s: System) {
    exists r :: r in s.pending && r.op.Write?
  }

  /** What is on screen is the selected file of the workbench on screen, or nothing. */
  predicate Right(p: Pane) {
    p.file.Some? ==>
      p.file.value.path == p.props.selected && p.file.value.origin == p.props.workbench &&
      (p.file.value.deleted <==> IsDeleted(p.props))
  }

  /** The selection moves to a file that the same workbench has to be asked for. */
  predicate MovesByReading(p: Pane, props: Props) {
    props.selected != "" && !IsDeleted(props) && props.workbench == p.props.workbench
  }

  /** The discipline. Both halves are questions to the state at the moment of the event. */
  ghost predicate Careful(s: System, e: Event) {
    match e
    case Save => !Loading(s)
    case Show(props) => OpenKey(props) != OpenKey(s.pane.props) && Writing(s) ==> MovesByReading(s.pane, props)
    case _ => true
  }

  ghost predicate CarefulRun(s: System, run: seq<Event>)
    requires Possible(s, run)
    decreases |run|
  {
    run == [] || (Careful(s, run[0]) && CarefulRun(Step(s, run[0]), run[1..]))
  }

  // --- the invariant ---

  ghost predicate OpensMatch(s: System) {
    forall r :: r in s.pending && Live(s.pane, r.op) ==>
      r.workbench == s.pane.props.workbench && r.op.path == s.pane.props.selected &&
      s.pane.props.selected != "" && !IsDeleted(s.pane.props)
  }

  ghost predicate RunsKnown(s: System) {
    forall r :: r in s.pending ==>
      (r.op.OpenRead? ==> r.op.run <= s.pane.openRun) && (r.op.ReRead? ==> r.op.read <= s.pane.read)
  }

  /** The queue's order: every save is in front of the read the selection waits for. */
  ghost predicate WritesFirst(s: System) {
    forall j, m :: 0 <= j < |s.pending| && 0 <= m < |s.pending| ==>
      s.pending[j].op.Write? && Live(s.pane, s.pending[m].op) ==> j < m
  }

  /** A save goes to the checkout its file was read from. */
  ghost predicate WritesGoHome(s: System) {
    forall r :: r in s.pending && r.op.Write? ==>
      r.workbench == r.op.file.origin == s.pane.props.workbench &&
      (!Loading(s) ==> r.op.file.path == s.pane.props.selected && !IsDeleted(s.pane.props))
  }

  /** The screen, the saves in flight and the re-reads of what is on screen are about one path. */
  ghost predicate OneSubject(s: System, path: Path) {
    && (s.pane.file.Some? ==> s.pane.file.value.path == path != "")
    && (forall r :: r in s.pending && r.op.Write? ==> r.op.file.path == path != "")
    && (forall r :: r in s.pending && r.op.ReRead? && r.op.read == s.pane.read ==>
          r.op.path == path != "" && (s.pane.file.Some? ==> !s.pane.file.value.deleted))
  }

  ghost predicate RereadsGoHome(s: System) {
    !Loading(s) && (s.pane.file.Some? || Writing(s)) ==>
      forall r :: r in s.pending && r.op.ReRead? && r.op.read == s.pane.read ==> r.workbench == s.pane.props.workbench
  }

  ghost predicate Selected(s: System, path: Path) {
    && WritesUnlocked(s.pending)
    && OpensMatch(s) && RunsKnown(s) && WritesFirst(s) && WritesGoHome(s) && OneSubject(s, path) && RereadsGoHome(s)
    && (!Loading(s) ==> Right(s.pane))
  }

  // --- steps that leave the selection's key alone ---

  /** A read a render asks for about what is on screen. */
  ghost predicate AboutTheScreen(p: Pane, r: Pending<Request>) {
    r.op.CommittedRead? ||
    (r.op.ReRead? && r.op.read == p.read && p.file.Some? && !p.file.value.deleted &&
     r.op.path == p.file.value.path && r.workbench == p.props.workbench)
  }

  /** The parts of the pane the invariant looks at. */
  predicate SameScreen(p: Pane, q: Pane) {
    q.file == p.file && q.read == p.read && q.openRun == p.openRun && OpenKey(q.props) == OpenKey(p.props)
  }

  lemma AppendReads(s: System, q: Pane, sent: seq<Pending<Request>>, path: Path)
    requires Selected(s, path) && SameScreen(s.pane, q)
    requires forall r :: r in sent ==> AboutTheScreen(s.pane, r)
    ensures Selected(System(q, s.pending + sent), path)
  {
    hide IsDeleted;
    var t := System(q, s.pending + sent);
    assert forall r :: r in t.pending <==> r in s.pending || r in sent;
    assert Loading(t) <==> Loading(s);
    assert Writing(t) <==> Writing(s);
    AppendKeepsOrder(s, q, sent);
  }

  lemma AppendKeepsOrder(s: System, q: Pane, sent: seq<Pending<Request>>)
    requires WritesFirst(s) && q.openRun == s.pane.openRun
    requires forall r :: r in sent ==> !r.op.Write? && !r.op.OpenRead?
    ensures WritesFirst(System(q, s.pending + sent))
  {
    var all := s.pending + sent;
    forall i | |s.pending| <= i < |all| ensures !all[i].op.Write? && !all[i].op.OpenRead? {
      assert all[i] == sent[i - |s.pending|];
    }
    forall j, m | 0 <= j < |all| && 0 <= m < |all| && all[j].op.Write? && Live(q, all[m].op) ensures j < m {
      assert s.pending[j] == all[j] && s.pending[m] == all[m];
    }
  }

  /** A render under the same key only adds reads about what is on screen. */
  lemma RenderKeepsSelected(p: Pane, x: Pane, pending: seq<Pending<Request>>, path: Path)
    requires OpenKey(x.props) == OpenKey(p.props)
    requires Selected(System(x, pending), path)
    ensures Selected(After(Rendered(p, x), pending), path)
  {
    hide Rendered, IsDeleted;
    RenderedFrame(p, x);
    RenderedIssues(p, x);
    var t := Rendered(p, x);
    forall r | r in Sent(t.pane.props.workbench, t.issued) ensures AboutTheScreen(x, r) {
      assert r.op in t.issued;
    }
    AppendReads(System(x, pending), t.pane, Sent(t.pane.props.workbench, t.issued), path);
  }

  /** A change of anything the invariant does not look at. */
  lemma SameScreenKeepsSelected(s: System, q: Pane, path: Path)
    requires Selected(s, path) && SameScreen(s.pane, q)
    ensures Selected(System(q, s.pending), path)
  {
    AppendReads(s, q, [], path);
    assert s.pending + [] == s.pending;
  }

  /** An answer the selection did not wait for leaves the queue. */
  lemma DropKeepsSelected(s: System, k: nat, path: Path)
    requires Selected(s, path) && k < |s.pending| && !Live(s.pane, s.pending[k].op)
    ensures Selected(System(s.pane, Without(s.pending, k)), path)
    ensures Loading(System(s.pane, Without(s.pending, k))) <==> Loading(s)
  {
    hide IsDeleted, Without;
    var t := System(s.pane, Without(s.pending, k));
    WithoutIsPart(s.pending, k);
    assert Loading(t) <==> Loading(s);
    assert Writing(t) ==> Writing(s);
    DropKeepsOrder(s, k);
  }

  lemma DropKeepsOrder(s: System, k: nat)
    requires WritesFirst(s) && k < |s.pending|
    ensures WritesFirst(System(s.pane, Without(s.pending, k)))
  {
    var rest := Without(s.pending, k);
    forall j, m | 0 <= j < |rest| && 0 <= m < |rest| && rest[j].op.Write? && Live(s.pane, rest[m].op) ensures j < m {
      var j', m' := if j < k then j else j + 1, if m < k then m else m + 1;
      assert s.pending[j'] == rest[j] && s.pending[m'] == rest[m];
    }
  }

  /** The awaited answer comes after every save, so it finds none in flight. */
  lemma NoWritesBesideTheAwaited(s: System, k: nat)
    requires WritesFirst(s) && WritesGoHome(s) && OpensMatch(s)
    requires MayAnswer(s.pending, k) && Live(s.pane, s.pending[k].op)
    ensures !Writing(s)
  {
    assert s.pending[k] in s.pending;
    assert forall j :: 0 <= j < |s.pending| && s.pending[j].op.Write? ==> j < k && s.pending[j] in s.pending;
  }

  lemma AwaitedAnswerKeepsSelected(s: System, k: nat, reply: Reply, path: Path) returns (path': Path)
    requires Selected(s, path) && Enabled(s, Answer(k, reply)) && Live(s.pane, s.pending[k].op)
    ensures var x := OpenAnswered(s.pane, s.pending[k].workbench, s.pending[k].op.run, reply);
            Selected(System(x, Without(s.pending, k)), path')
  {
    hide IsDeleted, Without;
    var x := OpenAnswered(s.pane, s.pending[k].workbench, s.pending[k].op.run, reply);
    path' := if reply.Content? then reply.loaded.path else path;
    var t := System(x, Without(s.pending, k));
    NoWritesBesideTheAwaited(s, k);
    WithoutIsPart(s.pending, k);
    assert s.pending[k] in s.pending;
    assert !Writing(t);
    DropKeepsOrder(s, k);
  }

  lemma RereadKeepsSelected(s: System, k: nat, reply: Reply, path: Path)
    requires Selected(s, path) && Enabled(s, Answer(k, reply)) && s.pending[k].op.ReRead?
    ensures var x := RereadAnswered(s.pane, s.pending[k].workbench, s.pending[k].op.read, s.pending[k].op.run, reply);
            Selected(System(x, Without(s.pending, k)), path)
  {
    hide IsDeleted, Without;
    var r := s.pending[k];
    assert r in s.pending;
    var x := RereadAnswered(s.pane, r.workbench, r.op.read, r.op.run, reply);
    DropKeepsSelected(s, k, path);
    var rest := System(s.pane, Without(s.pending, k));
    if SameScreen(s.pane, x) {
      SameScreenKeepsSelected(rest, x, path);
    } else {
      var t := System(x, rest.pending);
      assert Loading(t) <==> Loading(rest);
      assert WritesFirst(t);
    }
  }

  lemma WriteKeepsSelected(s: System, k: nat, reply: Reply, path: Path)
    requires Selected(s, path) && Enabled(s, Answer(k, reply)) && s.pending[k].op.Write?
    ensures var x := WriteAnswered(s.pane, s.pending[k].op.file, s.pending[k].op.draft, reply);
            Selected(System(x, Without(s.pending, k)), path)
  {
    hide IsDeleted, Without;
    var r := s.pending[k];
    assert r in s.pending;
    var x := WriteAnswered(s.pane, r.op.file, r.op.draft, reply);
    DropKeepsSelected(s, k, path);
    WithoutIsPart(s.pending, k);
    var t := System(x, Without(s.pending, k));
    assert Loading(t) <==> Loading(s);
    assert Writing(s);
    assert WritesFirst(System(s.pane, t.pending));
    assert WritesFirst(t);
  }

  lemma SaveKeepsSelected(s: System, path: Path)
    requires Selected(s, path) && Sound(s) && CanSave(s.pane) && !Loading(s)
    ensures Selected(Step(s, Save), path)
  {
    hide Rendered, IsDeleted;
    var p := s.pane;
    if p.file.Some? && !p.file.value.binary && !p.file.value.deleted {
      var x := p.(saving := true, error := None);
      var t := Rendered(p, x);
      var write := Pending(p.props.workbench, Write(p.file.value, p.draft));
      NothingIssued(p, x);
      RenderedFrame(p, x);
      assert Sent(p.props.workbench, [write.op] + t.issued) == [write];
      var all := s.pending + [write];
      assert forall r :: r in all <==> r in s.pending || r == write;
      var u := System(x, all);
      assert !Loading(u);
      assert Selected(u, path);
      SameScreenKeepsSelected(u, t.pane, path);
    } else {
      assert s.pending + Sent(p.props.workbench, []) == s.pending;
    }
  }

  lemma NothingIssued(p: Pane, x: Pane)
    requires x.props == p.props && x.read == p.read
    ensures Rendered(p, x).issued == []
  {
  }

  // --- steps that move the selection ---

  /** What the queue holds after a step. */
  lemma QueuedAfter(t: Turn, pending: seq<Pending<Request>>)
    ensures var u := After(t, pending);
            && pending <= u.pending
            && (forall r :: r in u.pending <==>
                  r in pending || (r.op in t.issued && r.workbench == t.pane.props.workbench))
            && (forall i :: |pending| <= i < |u.pending| ==> u.pending[i].op in t.issued)
  {
    var u, sent := After(t, pending), Sent(t.pane.props.workbench, t.issued);
    forall r: Pending<Request> | r.op in t.issued && r.workbench == t.pane.props.workbench ensures r in u.pending {
      var i :| 0 <= i < |t.issued| && t.issued[i] == r.op;
      assert u.pending[|pending| + i] == sent[i] == r;
    }
    assert forall i :: |pending| <= i < |u.pending| ==> u.pending[i] == sent[i - |pending|];
  }

  /** What a move does to the pane and to the queue, in the invariant's terms. */
  ghost predicate Moved(s: System, props: Props, u: System) {
    && s.pending <= u.pending && u.pane.props == props && u.pane.openRun == s.pane.openRun + 1
    && SameFile(OpenEffect(s.pane.(props := props)).pane, u.pane)
    && (forall r :: r in s.pending ==> !Live(u.pane, r.op))
    && (forall r :: r in u.pending && r !in s.pending ==> MovedAsks(s, props, u, r))
    && (props.selected != "" && !IsDeleted(props) ==> Loading(u))
  }

  ghost predicate MovedAsks(s: System, props: Props, u: System, r: Pending<Request>) {
    r.workbench == props.workbench &&
    match r.op
    case OpenRead(path, run) =>
      path == props.selected && props.selected != "" && !IsDeleted(props) && run == u.pane.openRun
    case ReRead(path, read, _) =>
      read == s.pane.read && s.pane.file.Some? && !s.pane.file.value.deleted && path == s.pane.file.value.path
    case CommittedRead(_, _, _) => true
    case _ => false
  }

  lemma MoveFacts(s: System, props: Props)
    requires RunsKnown(s) && OpenKey(props) != OpenKey(s.pane.props)
    ensures Moved(s, props, Step(s, Show(props)))
  {
    hide Rendered, IsDeleted, OpenEffect, After;
    var x := s.pane.(props := props);
    var t := Rendered(s.pane, x);
    RenderedFrame(s.pane, x);
    RenderedIssues(s.pane, x);
    QueuedAfter(t, s.pending);
    OpenEffectRuns(x);
    var u := After(t, s.pending);
    assert u.pane == t.pane by { AfterPane(t, s.pending); }
    if props.selected != "" && !IsDeleted(props) {
      var asked := Pending(props.workbench, OpenRead(props.selected, x.openRun + 1));
      assert asked in u.pending && Live(u.pane, asked.op);
    }
  }

  lemma OpenEffectRuns(x: Pane)
    ensures OpenEffect(x).pane.openRun == x.openRun + 1
  {
  }

  lemma AfterPane(t: Turn, pending: seq<Pending<Request>>)
    ensures After(t, pending).pane == t.pane
  {
  }

  lemma MoveWritesFirst(s: System, props: Props)
    requires RunsKnown(s) && OpenKey(props) != OpenKey(s.pane.props)
    ensures WritesFirst(Step(s, Show(props)))
  {
    hide Rendered;
    var x := s.pane.(props := props);
    var t := Rendered(s.pane, x);
    MoveFacts(s, props);
    RenderedIssues(s.pane, x);
    var sent := Sent(t.pane.props.workbench, t.issued);
    assert forall r :: r in sent ==> r.op in t.issued;
    MoveKeepsOrder(s, t.pane, sent);
  }

  lemma MoveKeepsSelected(s: System, props: Props, path: Path) returns (path': Path)
    requires Selected(s, path) && Careful(s, Show(props)) && OpenKey(props) != OpenKey(s.pane.props)
    ensures Selected(Step(s, Show(props)), path')
  {
    hide Step;
    MoveFacts(s, props);
    MoveWritesFirst(s, props);
    path' := if props.selected == "" || !IsDeleted(props) then path else props.selected;
    MovedIsSelected(s, Step(s, Show(props)), props, path, path');
  }

  /** Moved is enough. */
  lemma MovedIsSelected(s: System, u: System, props: Props, path: Path, path': Path)
    requires Selected(s, path) && Careful(s, Show(props)) && OpenKey(props) != OpenKey(s.pane.props)
    requires Moved(s, props, u) && WritesFirst(u)
    requires path' == if props.selected == "" || !IsDeleted(props) then path else props.selected
    ensures Selected(u, path')
  {
    hide IsDeleted;
    if props.selected == "" || IsDeleted(props) {
      assert !Writing(s);
      assert !Loading(u) && !Writing(u);
    }
  }

  lemma MoveKeepsOrder(s: System, q: Pane, sent: seq<Pending<Request>>)
    requires forall r :: r in s.pending ==> !Live(q, r.op)
    requires forall r :: r in sent ==> !r.op.Write?
    ensures WritesFirst(System(q, s.pending + sent))
  {
    var all := s.pending + sent;
    assert forall m :: 0 <= m < |s.pending| ==> all[m] == s.pending[m] && s.pending[m] in s.pending;
    assert forall j :: |s.pending| <= j < |all| ==> all[j] == sent[j - |s.pending|] && all[j] in sent;
  }

  // --- the theorems ---

  lemma AnswerKeepsSelected(s: System, k: nat, reply: Reply, path: Path) returns (path': Path)
    requires Selected(s, path) && Enabled(s, Answer(k, reply))
    ensures Selected(Step(s, Answer(k, reply)), path')
  {
    hide Rendered, IsDeleted, Without, Live;
    var p, r, rest := s.pane, s.pending[k], Without(s.pending, k);
    path' := path;
    if Live(p, r.op) {
      path' := AwaitedAnswerKeepsSelected(s, k, reply, path);
      assert r.op.OpenRead? by { AwaitedIsAnOpen(p, r.op); }
      RenderKeepsSelected(p, OpenAnswered(p, r.workbench, r.op.run, reply), rest, path');
    } else {
      match r.op
      case OpenRead(_, run) =>
        DropKeepsSelected(s, k, path);
        StaleOpen(p, r.op, r.workbench, reply);
        RenderKeepsSelected(p, p, rest, path);
      case ReRead(_, read, run) =>
        RereadKeepsSelected(s, k, reply, path);
        RenderKeepsSelected(p, RereadAnswered(p, r.workbench, read, run, reply), rest, path);
      case CommittedRead(_, read, run) =>
        DropKeepsSelected(s, k, path);
        var x := CommittedAnswered(p, read, run, reply);
        SameScreenKeepsSelected(System(p, rest), x, path);
        RenderKeepsSelected(p, x, rest, path);
      case Write(file, draft) =>
        WriteKeepsSelected(s, k, reply, path);
        RenderKeepsSelected(p, WriteAnswered(p, file, draft, reply), rest, path);
      case Bar(_) =>
        DropKeepsSelected(s, k, path);
        assert rest + Sent(p.props.workbench, []) == rest;
    }
  }

  lemma AwaitedIsAnOpen(p: Pane, request: Request)
    requires Live(p, request)
    ensures request.OpenRead?
  {
  }

  lemma StaleOpen(p: Pane, request: Request, origin: string, reply: Reply)
    requires request.OpenRead? && !Live(p, request) && (reply.Content? || reply.Refused?)
    ensures OpenAnswered(p, origin, request.run, reply) == p
  {
  }

  lemma StepKeepsSelected(s: System, e: Event, path: Path) returns (path': Path)
    requires Selected(s, path) && Sound(s) && Enabled(s, e) && Careful(s, e)
    ensures Selected(Step(s, e), path')
  {
    hide Rendered, IsDeleted;
    var p := s.pane;
    path' := path;
    match e
    case Show(props) =>
      if OpenKey(props) != OpenKey(p.props) {
        path' := MoveKeepsSelected(s, props, path);
      } else {
        var x := p.(props := props);
        SameScreenKeepsSelected(s, x, path);
        RenderKeepsSelected(p, x, s.pending, path);
      }
    case Type(text) =>
      var x := p.(draft := text, editor := Some(p.editor.value.(text := text)));
      SameScreenKeepsSelected(s, x, path);
      RenderKeepsSelected(p, x, s.pending, path);
    case Save => SaveKeepsSelected(s, path);
    case Ask(call) => AskKeepsSelected(s, call, path);
    case Answer(k, reply) => path' := AnswerKeepsSelected(s, k, reply, path);
  }

  lemma AskKeepsSelected(s: System, call: BarCall, path: Path)
    requires Selected(s, path)
    ensures Selected(Step(s, Ask(call)), path)
  {
    hide IsDeleted;
    var asked := Pending(s.pane.props.workbench, Bar(call));
    var t := Step(s, Ask(call));
    assert t.pending == s.pending + [asked];
    assert forall r :: r in t.pending <==> r in s.pending || r == asked;
    assert Loading(t) <==> Loading(s);
    assert Writing(t) <==> Writing(s);
    AppendKeepsOrder(s, s.pane, [asked]);
  }

  lemma {:induction false} RunKeepsSelected(s: System, run: seq<Event>, path: Path) returns (path': Path)
    requires Selected(s, path) && Sound(s) && Possible(s, run) && CarefulRun(s, run)
    ensures Selected(Final(s, run), path')
    decreases |run|
  {
    if run == [] {
      path' := path;
    } else {
      path' := StepKeepsSelected(s, run[0], path);
      StepKeepsSound(s, run[0]);
      path' := RunKeepsSelected(Step(s, run[0]), run[1..], path');
    }
  }

  lemma StartIsSelected(props: Props)
    ensures Selected(Start(props), props.selected)
  {
    hide Find, MonacoLanguage;
    var s := Start(props);
    if props.selected == "" {
      assert s.pending == [];
    } else if IsDeleted(props) {
      assert s.pending == [Pending(props.workbench, CommittedRead(CommittedPath(props).value, 1, 1))];
    } else {
      assert s.pending == [Pending(props.workbench, OpenRead(props.selected, 1))];
      assert s.pending[0] in s.pending;
      assert Loading(s);
    }
  }

  /**
   The last selection wins. After any careful run, once the selection's own answer is in,
   the file on screen is the selected file of the workbench on screen, or there is none -
   saves that were in flight while it was selected included.
   */
  lemma TheLastSelectionWins(props: Props, run: seq<Event>)
    requires Possible(Start(props), run) && CarefulRun(Start(props), run)
    ensures Loading(Final(Start(props), run)) || Right(Final(Start(props), run).pane)
  {
    StartIsSound(props);
    StartIsSelected(props);
    var path := RunKeepsSelected(Start(props), run, props.selected);
  }

  /** In a careful run every save is sent to the checkout its file was read from, and is still about that file. */
  lemma EverySaveGoesHome(props: Props, run: seq<Event>)
    requires Possible(Start(props), run) && CarefulRun(Start(props), run)
    ensures WritesGoHome(Final(Start(props), run))
  {
    StartIsSound(props);
    StartIsSelected(props);
    var path := RunKeepsSelected(Start(props), run, props.selected);
  }

  // --- deleted files ---

  /** A selected file that the status calls deleted is on screen, as an empty text. */
  ghost predicate DeletedShown(s: System) {
    var p := s.pane;
    p.props.selected != "" && IsDeleted(p.props) ==>
      p.file.Some? && p.file.value.path == p.props.selected && p.file.value.deleted &&
      p.file.value.text == "" && p.draft == "" && !p.file.value.binary && !p.file.value.truncated
  }

  /** While such a file is selected, nothing that counts is about to be answered. */
  lemma NothingCounts(s: System, k: nat, path: Path)
    requires Selected(s, path) && DeletedShown(s) && k < |s.pending|
    requires s.pane.props.selected != "" && IsDeleted(s.pane.props)
    ensures var op := s.pending[k].op;
            !op.Write? && !Live(s.pane, op) && (op.ReRead? ==> op.read != s.pane.read)
  {
    hide IsDeleted;
    assert s.pending[k] in s.pending;
  }

  lemma StepKeepsDeletedShown(s: System, e: Event, path: Path)
    requires Selected(s, path) && Sound(s) && DeletedShown(s) && Enabled(s, e)
    ensures DeletedShown(Step(s, e))
  {
    hide Rendered, IsDeleted;
    var p := s.pane;
    match e
    case Show(props) => RenderedFrame(p, p.(props := props));
    case Type(text) => RenderedFrame(p, p.(draft := text, editor := Some(p.editor.value.(text := text))));
    case Save => RenderedFrame(p, p.(saving := true, error := None));
    case Ask(call) =>
    case Answer(k, reply) =>
      if p.props.selected != "" && IsDeleted(p.props) {
        NothingCounts(s, k, path);
      }
      AnswerKeepsDeletedShown(s, k, reply);
  }

  lemma AnswerKeepsDeletedShown(s: System, k: nat, reply: Reply)
    requires DeletedShown(s) && Enabled(s, Answer(k, reply))
    requires s.pane.props.selected != "" && IsDeleted(s.pane.props) ==>
      var op := s.pending[k].op; !op.Write? && !Live(s.pane, op) && (op.ReRead? ==> op.read != s.pane.read)
    ensures DeletedShown(Step(s, Answer(k, reply)))
  {
    hide Rendered, IsDeleted;
    var p, r := s.pane, s.pending[k];
    match r.op
    case OpenRead(_, run) => RenderedFrame(p, OpenAnswered(p, r.workbench, run, reply));
    case ReRead(_, read, run) => RenderedFrame(p, RereadAnswered(p, r.workbench, read, run, reply));
    case CommittedRead(_, read, run) => RenderedFrame(p, CommittedAnswered(p, read, run, reply));
    case Write(file, draft) => RenderedFrame(p, WriteAnswered(p, file, draft, reply));
    case Bar(_) =>
  }

  lemma {:induction false} RunKeepsDeletedShown(s: System, run: seq<Event>, path: Path)
    requires Selected(s, path) && Sound(s) && DeletedShown(s) && Possible(s, run) && CarefulRun(s, run)
    ensures DeletedShown(Final(s, run))
    decreases |run|
  {
    hide Selected, Sound, DeletedShown, Enabled, Step, Careful;
    if run != [] {
      StepKeepsDeletedShown(s, run[0], path);
      var path' := StepKeepsSelected(s, run[0], path);
      StepKeepsSound(s, run[0]);
      RunKeepsDeletedShown(Step(s, run[0]), run[1..], path');
    }
  }

  /**
   A selected file that the status calls deleted is shown as an empty text in a read-only editor, and
   nothing writes it, in every state a careful run reaches.
   */
  lemma ADeletedFileIsShownReadOnly(props: Props, run: seq<Event>)
    requires Possible(Start(props), run) && CarefulRun(Start(props), run)
    ensures var s := Final(Start(props), run);
            var p, change := s.pane, Find(s.pane.props.status.changes, s.pane.props.selected);
            p.props.selected != "" && change.Some? && change.value.kind == Deleted ==>
              && p.file.Some? && p.file.value.path == p.props.selected && p.file.value.text == "" && p.draft == ""
              && p.editor.Some? && p.editor.value.readOnly && p.editor.value.text == "" && !Writing(s)
  {
    StartIsSound(props);
    StartIsSelected(props);
    StartShowsDeleted(props);
    RunKeepsSound(Start(props), run);
    var path := RunKeepsSelected(Start(props), run, props.selected);
    RunKeepsDeletedShown(Start(props), run, props.selected);
    var s := Final(Start(props), run);
    if s.pane.props.selected != "" && IsDeleted(s.pane.props) {
      NoWritesOfDeleted(s, path);
    }
  }

  lemma NoWritesOfDeleted(s: System, path: Path)
    requires Selected(s, path) && s.pane.props.selected != "" && IsDeleted(s.pane.props)
    ensures !Writing(s)
  {
  }

  lemma StartShowsDeleted(props: Props)
    ensures DeletedShown(Start(props))
  {
    hide Find, MonacoLanguage;
  }

  // --- refusals, and the save button ---

  /** What a refused answer that counts leaves on screen: its message, and everything that was typed. */
  lemma ARefusalIsShown(s: System, k: nat, status: nat, message: string)
    requires MayAnswer(s.pending, k) && !Stale(s.pane, s.pending[k].op) && !s.pending[k].op.Bar?
    ensures Enabled(s, Answer(k, Refused(status, message)))
    ensures var p, q := s.pane, Step(s, Answer(k, Refused(status, message))).pane;
            var op := s.pending[k].op;
            && q.draft == p.draft && q.read == p.read
            && (op.OpenRead? ==> q.file.None? && q.error == Some(message))
            && (op.Write? ==> q.file == p.file && q.error == Some(message) && !q.saving && q.overtaken == p.overtaken)
            && (op.CommittedRead? ==>
                  q.file == p.file && q.committed == Some(Committed(op.read, NotCompared(message))))
            && (op.ReRead? && p.draft != p.file.value.text ==> q.file == p.file && q.overtaken == Some(p.read))
            && (op.ReRead? && p.draft == p.file.value.text ==>
                  q.error == Some(message) && q.file == if status == 404 then None else p.file)
  {
    hide Mount, IsDeleted, CommittedPath, IsNew;
    var p, r, reply := s.pane, s.pending[k], Refused(status, message);
    match r.op
    case OpenRead(_, run) => OnlyMounts(p, OpenAnswered(p, r.workbench, run, reply));
    case ReRead(_, read, run) => OnlyMounts(p, RereadAnswered(p, r.workbench, read, run, reply));
    case CommittedRead(_, read, run) => OnlyMounts(p, CommittedAnswered(p, read, run, reply));
    case Write(file, draft) => OnlyMounts(p, WriteAnswered(p, file, draft, reply));
  }

  lemma StepKeepsButton(s: System, e: Event)
    requires (s.pane.saving ==> Writing(s)) && Enabled(s, e)
    ensures Step(s, e).pane.saving ==> Writing(Step(s, e))
  {
    hide Rendered, IsDeleted;
    var p := s.pane;
    match e
    case Show(props) =>
      RenderedFrame(p, p.(props := props));
      QueuedAfter(WithProps(p, props), s.pending);
    case Type(text) =>
      RenderedFrame(p, p.(draft := text, editor := Some(p.editor.value.(text := text))));
      QueuedAfter(Typed(p, text), s.pending);
    case Save => SavingWrites(s);
    case Ask(call) => QueuedAfter(Turn(p, [Bar(call)]), s.pending);
    case Answer(k, reply) => AnswerKeepsButton(s, k, reply);
  }

  lemma SavingWrites(s: System)
    requires (s.pane.saving ==> Writing(s)) && CanSave(s.pane)
    ensures Step(s, Save).pane.saving ==> Writing(Step(s, Save))
  {
    hide Rendered;
    var p := s.pane;
    RenderedFrame(p, p.(saving := true, error := None));
    QueuedAfter(Saved(p), s.pending);
    var t := Step(s, Save);
    if p.file.Some? && !p.file.value.binary && !p.file.value.deleted {
      assert Saved(p).issued[0] == Write(p.file.value, p.draft);
      assert Pending(t.pane.props.workbench, Write(p.file.value, p.draft)) in t.pending;
    }
  }

  lemma AnswerKeepsButton(s: System, k: nat, reply: Reply)
    requires (s.pane.saving ==> Writing(s)) && Enabled(s, Answer(k, reply))
    ensures Step(s, Answer(k, reply)).pane.saving ==> Writing(Step(s, Answer(k, reply)))
  {
    hide Rendered, IsDeleted;
    var p, r := s.pane, s.pending[k];
    WithoutIsPart(s.pending, k);
    QueuedAfter(Answered(p, r.workbench, r.op, reply), Without(s.pending, k));
    match r.op
    case OpenRead(_, run) => RenderedFrame(p, OpenAnswered(p, r.workbench, run, reply));
    case ReRead(_, read, run) => RenderedFrame(p, RereadAnswered(p, r.workbench, read, run, reply));
    case CommittedRead(_, read, run) => RenderedFrame(p, CommittedAnswered(p, read, run, reply));
    case Write(file, draft) => RenderedFrame(p, WriteAnswered(p, file, draft, reply));
    case Bar(_) =>
  }

  /** The button says that it is saving only while a save is under way: no run leaves it stuck. */
  lemma {:induction false} TheButtonComesBack(s: System, run: seq<Event>)
    requires (s.pane.saving ==> Writing(s)) && Possible(s, run)
    ensures Final(s, run).pane.saving ==> Writing(Final(s, run))
    decreases |run|
  {
    hide Enabled, Step, Writing;
    if run != [] {
      StepKeepsButton(s, run[0]);
      TheButtonComesBack(Step(s, run[0]), run[1..]);
    }
  }

  // --- what a save sends ---

  /** A save changes neither the file nor the draft, and sends them both. */
  lemma SaveFacts(s: System)
    requires Enabled(s, Save) && s.pane.file.Some? && !Locked(s.pane.file.value)
    ensures var p, t := s.pane, Step(s, Save);
            && SameScreen(p, t.pane) && t.pane.props == p.props && t.pane.draft == p.draft
            && t.pending == s.pending + [Pending(p.props.workbench, Write(p.file.value, p.draft))]
            && Saved(p).issued == [Write(p.file.value, p.draft)]
  {
    hide Rendered;
    var x := s.pane.(saving := true, error := None);
    NothingIssued(s.pane, x);
    RenderedFrame(s.pane, x);
  }

  lemma SaveFactsInFull(s: System)
    requires Enabled(s, Save) && s.pane.file.Some? && !Locked(s.pane.file.value)
    ensures var p, t := s.pane, Step(s, Save);
            && t.pane == p.(saving := true, error := None, editor := t.pane.editor)
            && t.pending == s.pending + [Pending(p.props.workbench, Write(p.file.value, p.draft))]
  {
    hide Mount, IsDeleted, CommittedPath, IsNew;
    OnlyMounts(s.pane, s.pane.(saving := true, error := None));
    SaveFacts(s);
  }

  /** An unlocked file on screen can be saved, and the save sends the draft as that file. */
  lemma WouldWrite(s: System)
    requires Sound(s) && s.pane.file.Some? && !Locked(s.pane.file.value)
    ensures Enabled(s, Save) && Write(s.pane.file.value, s.pane.draft) in Saved(s.pane).issued
  {
    SaveFacts(s);
    assert Saved(s.pane).issued[0] == Write(s.pane.file.value, s.pane.draft);
  }
}
