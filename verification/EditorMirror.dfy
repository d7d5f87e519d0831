/**
 While only the pane itself moves its checkout, what the pane has on record for the open
 file is what the working copy holds, and a re-read never has anything to do.
 */
module EditorMirror {
  import opened Checkout
  import opened CodePane
  import opened EditorSafety
  import opened EditorSelection
  import opened Fifo
  import opened Wrappers

  /** The text on record is the working copy's. */
  ghost predicate Mirrored(b: Backend, wc: Tree, p: Pane) {
    p.file.Some? && !p.file.value.deleted ==>
      p.file.value.path in wc && Serve(b, p.file.value.path, wc[p.file.value.path]).text == p.file.value.text
  }

  /** Text that comes back from the working copy as it was written there. */
  predicate ReadsBack(text: Text) { '\0' !in text }

  /**
   Only this pane's opens, typing, saves, commits, pushes and fetches; no save overlapping
   a selection, and none of a text that does not read back.
   */
  ghost predicate Plain(b: Backend, w: World, h: Happening) {
    var props := w.sys.pane.props;
    match h
    case Saving => !Loading(w.sys) && ReadsBack(w.sys.pane.draft)
    case Selecting(path) => Careful(w.sys, Show(props.(selected := path)))
    case Clicking(call) => !call.Discard? && !call.Stash?
    case Answering(status, _) =>
      |w.sys.pending| > 0 && w.sys.pending[0].op.Bar? ==>
        Careful(AnsweredPane(b, w), Show(NewStatus(props, status)))
    case _ => true
  }

  ghost predicate PlainRun(b: Backend, w: World, run: seq<Happening>)
    requires CanRun(b, w, run)
    decreases |run|
  {
    run == [] || (Plain(b, w, run[0]) && PlainRun(b, Happens(b, w, run[0]), run[1..]))
  }

  ghost predicate QueuePlain(pending: seq<Pending<Request>>) {
    forall r :: r in pending ==>
      (r.op.Write? ==> ReadsBack(r.op.draft)) && r.op != Bar(Discard) && r.op != Bar(Stash)
  }

  ghost predicate InStep(b: Backend, w: World, path: Path) {
    && Sound(w.sys) && Selected(w.sys, path)
    && QueuePlain(w.sys.pending)
    && Mirrored(b, w.wc, w.sys.pane) && w.sys.pane.overtaken.None?
  }

  /** Steps that answer nothing leave the record, or replace it by none or by a deleted file. */
  lemma UnansweredKeepsMirror(b: Backend, wc: Tree, s: System, e: Event)
    requires Enabled(s, e) && !e.Answer?
    requires Mirrored(b, wc, s.pane) && QueuePlain(s.pending)
    requires e.Save? ==> ReadsBack(s.pane.draft)
    requires e.Ask? ==> !e.call.Discard? && !e.call.Stash?
    ensures Mirrored(b, wc, Step(s, e).pane) && Step(s, e).pane.overtaken == s.pane.overtaken
    ensures QueuePlain(Step(s, e).pending)
  {
    hide Rendered, Serve, IsDeleted;
    var p := s.pane;
    match e
    case Show(props) =>
      RenderedFrame(p, p.(props := props));
      RenderedIssues(p, p.(props := props));
      QueuedAfter(WithProps(p, props), s.pending);
    case Type(text) =>
      var x := p.(draft := text, editor := Some(p.editor.value.(text := text)));
      RenderedFrame(p, x);
      RenderedIssues(p, x);
      QueuedAfter(Typed(p, text), s.pending);
    case Save =>
      var x := p.(saving := true, error := None);
      RenderedFrame(p, x);
      RenderedIssues(p, x);
      QueuedAfter(Saved(p), s.pending);
    case Ask(call) => QueuedAfter(Turn(p, [Bar(call)]), s.pending);
  }

  /** A re-read of what is on screen finds what is on record, and one of anything else is stale. */
  lemma RereadFindsTheRecord(b: Backend, w: World, path: Path)
    requires InStep(b, w, path) && |w.sys.pending| > 0 && w.sys.pending[0].op.ReRead?
    ensures AnsweredPane(b, w).pane == w.sys.pane
  {
    hide Serve, IsDeleted;
    var r := w.sys.pending[0];
    assert r in w.sys.pending;
    var reply := ReplyOf(b, w, r.op);
    assert RereadAnswered(w.sys.pane, r.workbench, r.op.read, r.op.run, reply) == w.sys.pane;
    NothingToRender(w.sys.pane);
  }

  /** What the working copy is after the front call. */
  function WrittenBy(b: Backend, w: World): Tree
    requires |w.sys.pending| > 0
  {
    var r := w.sys.pending[0].op;
    if r.Write? && |r.draft| <= b.limit then w.wc[r.file.path := Blob(r.draft, true)] else w.wc
  }

  lemma OpenKeepsMirror(b: Backend, w: World)
    requires Mirrored(b, w.wc, w.sys.pane) && |w.sys.pending| > 0 && w.sys.pending[0].op.OpenRead?
    ensures Mirrored(b, w.wc, AnsweredPane(b, w).pane) && AnsweredPane(b, w).pane.overtaken == w.sys.pane.overtaken
  {
    hide Rendered, IsDeleted;
    var r := w.sys.pending[0];
    RenderedFrame(w.sys.pane, OpenAnswered(w.sys.pane, r.workbench, r.op.run, ReplyOf(b, w, r.op)));
  }

  lemma CommittedKeepsMirror(b: Backend, w: World)
    requires Mirrored(b, w.wc, w.sys.pane) && |w.sys.pending| > 0 && w.sys.pending[0].op.CommittedRead?
    ensures Mirrored(b, w.wc, AnsweredPane(b, w).pane) && AnsweredPane(b, w).pane.overtaken == w.sys.pane.overtaken
  {
    hide Rendered, IsDeleted, Serve;
    var r := w.sys.pending[0].op;
    RenderedFrame(w.sys.pane, CommittedAnswered(w.sys.pane, r.read, r.run, ReplyOf(b, w, r)));
  }

  lemma WriteKeepsMirror(b: Backend, w: World)
    requires Mirrored(b, w.wc, w.sys.pane) && w.sys.pane.overtaken.None?
    requires |w.sys.pending| > 0 && w.sys.pending[0].op.Write? && ReadsBack(w.sys.pending[0].op.draft)
    ensures Mirrored(b, WrittenBy(b, w), AnsweredPane(b, w).pane) && AnsweredPane(b, w).pane.overtaken.None?
  {
    hide Rendered, IsDeleted;
    var r := w.sys.pending[0].op;
    RenderedFrame(w.sys.pane, WriteAnswered(w.sys.pane, r.file, r.draft, ReplyOf(b, w, r)));
  }

  lemma AnswerKeepsQueuePlain(b: Backend, w: World)
    requires QueuePlain(w.sys.pending) && |w.sys.pending| > 0
    ensures QueuePlain(AnsweredPane(b, w).pending)
  {
    hide Rendered, IsDeleted, Answered;
    var p, r := w.sys.pane, w.sys.pending[0];
    var reply := ReplyOf(b, w, r.op);
    AnswersIssueNoWrites(p, r.workbench, r.op, reply);
    AnswerIssuesReads(p, r.workbench, r.op, reply);
    WithoutIsPart(w.sys.pending, 0);
    QueuedAfter(Answered(p, r.workbench, r.op, reply), Without(w.sys.pending, 0));
  }

  lemma AnswerKeepsMirror(b: Backend, w: World, path: Path)
    requires InStep(b, w, path) && |w.sys.pending| > 0
    ensures var s1 := AnsweredPane(b, w);
            && Mirrored(b, WrittenBy(b, w), s1.pane) && s1.pane.overtaken.None? && QueuePlain(s1.pending)
            && (w.sys.pending[0].op.Bar? ==> s1.pane == w.sys.pane)
  {
    hide Sound, Selected, Mirrored;
    assert w.sys.pending[0] in w.sys.pending;
    AnswerKeepsQueuePlain(b, w);
    match w.sys.pending[0].op {
      case OpenRead(_, _) => OpenKeepsMirror(b, w);
      case ReRead(_, _, _) => RereadFindsTheRecord(b, w, path);
      case CommittedRead(_, _, _) => CommittedKeepsMirror(b, w);
      case Write(_, _) => WriteKeepsMirror(b, w);
      case Bar(_) =>
    }
  }

  lemma AnswerIssuesReads(p: Pane, origin: string, request: Request, reply: Reply)
    requires Fits(request, reply)
    ensures forall r :: r in Answered(p, origin, request, reply).issued ==> !r.Bar?
  {
    hide Rendered;
    match request
    case OpenRead(_, run) => RenderedIssues(p, OpenAnswered(p, origin, run, reply));
    case ReRead(_, read, run) => RenderedIssues(p, RereadAnswered(p, origin, read, run, reply));
    case CommittedRead(_, read, run) => RenderedIssues(p, CommittedAnswered(p, read, run, reply));
    case Write(file, draft) => RenderedIssues(p, WriteAnswered(p, file, draft, reply));
    case Bar(_) =>
  }

  lemma UnansweredKeepsInStep(b: Backend, w: World, e: Event, path: Path) returns (path': Path)
    requires InStep(b, w, path) && Enabled(w.sys, e) && !e.Answer? && Careful(w.sys, e)
    requires e.Save? ==> ReadsBack(w.sys.pane.draft)
    requires e.Ask? ==> !e.call.Discard? && !e.call.Stash?
    ensures forall u: World :: u.sys == Step(w.sys, e) && u.wc == w.wc ==> InStep(b, u, path')
  {
    hide Step, IsDeleted;
    UnansweredKeepsMirror(b, w.wc, w.sys, e);
    StepKeepsSound(w.sys, e);
    path' := StepKeepsSelected(w.sys, e, path);
  }

  /** The front call's own continuation. */
  lemma AnsweredIsInStep(b: Backend, w: World, path: Path) returns (path': Path)
    requires InStep(b, w, path) && |w.sys.pending| > 0
    ensures InStep(b, w.(sys := AnsweredPane(b, w), wc := WrittenBy(b, w)), path')
  {
    hide Step, IsDeleted, Mirrored;
    var reply := ReplyOf(b, w, w.sys.pending[0].op);
    StepKeepsSound(w.sys, Answer(0, reply));
    path' := StepKeepsSelected(w.sys, Answer(0, reply), path);
    AnswerKeepsMirror(b, w, path);
  }

  lemma BumpKeepsKey(props: Props)
    ensures OpenKey(Bumped(props)) == OpenKey(props) && IsDeleted(Bumped(props)) == IsDeleted(props)
  {
  }

  lemma BarAnsweredIsInStep(b: Backend, w: World, status: Status, id: string, path: Path) returns (path': Path)
    requires InStep(b, w, path) && CanHappen(b, w, Answering(status, id)) && Plain(b, w, Answering(status, id))
    requires w.sys.pending[0].op.Bar?
    ensures InStep(b, Happens(b, w, Answering(status, id)), path')
  {
    hide Step, IsDeleted, Mirrored;
    var call := w.sys.pending[0].op.call;
    var props := w.sys.pane.props;
    assert w.sys.pending[0] in w.sys.pending;
    AnswerKeepsMirror(b, w, path);
    path' := AnsweredIsInStep(b, w, path);
    var w1 := w.(sys := AnsweredPane(b, w));
    BumpKeepsKey(NewStatus(props, status));
    if call.Commit? && Staged(b, w.wc, w.head) == w.head {
      assert Happens(b, w, Answering(status, id)).sys == w1.sys;
    } else if call.Commit? || call.Push? {
      path' := UnansweredKeepsInStep(b, w1, Ask(StatusAfterAct), path');
    } else if call.StatusAfterAct? {
      path' := UnansweredKeepsInStep(b, w1, Show(Bumped(NewStatus(props, status))), path');
    } else {
      path' := UnansweredKeepsInStep(b, w1, Show(NewStatus(props, status)), path');
    }
  }

  lemma HappeningKeepsInStep(b: Backend, w: World, h: Happening, path: Path) returns (path': Path)
    requires InStep(b, w, path) && CanHappen(b, w, h) && Plain(b, w, h)
    ensures InStep(b, Happens(b, w, h), path')
  {
    hide Step, IsDeleted, Mirrored;
    var props := w.sys.pane.props;
    BumpKeepsKey(props);
    match h
    case Typing(text) => path' := UnansweredKeepsInStep(b, w, Type(text), path);
    case Saving => path' := UnansweredKeepsInStep(b, w, Save, path);
    case Selecting(next) => path' := UnansweredKeepsInStep(b, w, Show(props.(selected := next)), path);
    case Clicking(call) => path' := UnansweredKeepsInStep(b, w, Ask(call), path);
    case Reloading => path' := UnansweredKeepsInStep(b, w, Ask(StatusRead), path);
    case Bumping => path' := UnansweredKeepsInStep(b, w, Show(Bumped(props)), path);
    case Answering(status, id) =>
      if w.sys.pending[0].op.Bar? {
        path' := BarAnsweredIsInStep(b, w, status, id, path);
      } else {
        path' := AnsweredIsInStep(b, w, path);
      }
  }

  lemma {:induction false} RunKeepsInStep(b: Backend, w: World, run: seq<Happening>, path: Path) returns (path': Path)
    requires InStep(b, w, path) && CanRun(b, w, run) && PlainRun(b, w, run)
    ensures InStep(b, Afterwards(b, w, run), path')
    decreases |run|
  {
    if run == [] {
      path' := path;
    } else {
      path' := HappeningKeepsInStep(b, w, run[0], path);
      path' := RunKeepsInStep(b, Happens(b, w, run[0]), run[1..], path');
    }
  }

  lemma OpeningIsInStep(b: Backend, w: World)
    requires Opening(b, w)
    ensures InStep(b, w, w.sys.pane.props.selected)
  {
    var props := w.sys.pane.props;
    StartIsSound(props);
    StartIsSelected(props);
    assert forall r :: r in w.sys.pending ==> r.op.OpenRead? || r.op.CommittedRead?;
  }

  /**
   In any plain run the text on record is the working copy's, nothing is ever said to have
   overtaken unsaved edits, and whenever a re-read is answered - after a commit, a push or
   any other version bump - it leaves the pane exactly as it was: the editor, its cursor
   and its unsaved text.
   */
  lemma AVersionBumpReplacesNothing(b: Backend, w: World, run: seq<Happening>)
    requires Opening(b, w) && CanRun(b, w, run) && PlainRun(b, w, run)
    ensures var v := Afterwards(b, w, run);
            && Mirrored(b, v.wc, v.sys.pane) && v.sys.pane.overtaken.None?
            && (|v.sys.pending| > 0 && v.sys.pending[0].op.ReRead? ==> AnsweredPane(b, v).pane == v.sys.pane)
  {
    OpeningIsInStep(b, w);
    var path := RunKeepsInStep(b, w, run, w.sys.pane.props.selected);
    var v := Afterwards(b, w, run);
    if |v.sys.pending| > 0 && v.sys.pending[0].op.ReRead? {
      RereadFindsTheRecord(b, v, path);
    }
  }
}
