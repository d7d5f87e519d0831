/**
 Files the editor cannot hold: bytes that are no text, and texts over the limit. They are on screen
 without an editor, no save names them, and they stay what they are.
 */
module EditorLocked {
  import opened Checkout
  import opened CodePane
  import opened EditorMirror
  import opened EditorSafety
  import opened EditorSelection
  import opened Fifo
  import opened Wrappers

  /** The pane would be shown only a part of it, or nothing. */
  predicate CannotBeEdited(b: Backend, blob: Blob) { !blob.decodes || |blob.text| > b.limit }

  /** No discard and no stash, which bring HEAD's files back whatever they are. */
  predicate KeepsFiles(h: Happening) { h.Clicking? ==> !h.call.Discard? && !h.call.Stash? }

  predicate AllKeepFiles(run: seq<Happening>) { forall i :: 0 <= i < |run| ==> KeepsFiles(run[i]) }

  // --- the invariant ---

  /** What is on screen says what the working copy's file is. */
  predicate ScreenTells(b: Backend, wc: Tree, p: Pane) {
    p.file.Some? && !p.file.value.deleted && p.file.value.path in wc && CannotBeEdited(b, wc[p.file.value.path]) ==>
      p.file.value.binary || p.file.value.truncated
  }

  ghost predicate QueueSpares(b: Backend, wc: Tree, pending: seq<Pending<Request>>) {
    forall r :: r in pending ==>
      (r.op.Write? ==> r.op.file.path in wc ==> !CannotBeEdited(b, wc[r.op.file.path])) &&
      r.op != Bar(Discard) && r.op != Bar(Stash)
  }

  ghost predicate Spares(b: Backend, w: World) {
    Sound(w.sys) && ScreenTells(b, w.wc, w.sys.pane) && QueueSpares(b, w.wc, w.sys.pending)
  }

  lemma UnansweredSpares(b: Backend, wc: Tree, s: System, e: Event)
    requires Enabled(s, e) && !e.Answer? && (e.Ask? ==> !e.call.Discard? && !e.call.Stash?)
    requires Sound(s) && ScreenTells(b, wc, s.pane) && QueueSpares(b, wc, s.pending)
    ensures Sound(Step(s, e)) && ScreenTells(b, wc, Step(s, e).pane) && QueueSpares(b, wc, Step(s, e).pending)
  {
    hide Rendered, IsDeleted, EditorShowsDraft;
    StepKeepsSound(s, e);
    var p := s.pane;
    match e
    case Show(props) =>
      RenderedFrame(p, p.(props := props));
      RenderedIssues(p, p.(props := props));
      QueuedAfter(WithProps(p, props), s.pending);
    case Type(text) =>
      var x := p.(draft := text, editor := Some(p.editor.value.(text := text)));
      RenderedFrame(p, x);
      RenderedIssues(p, x);
      QueuedAfter(Typed(p, text), s.pending);
    case Save => SavingSpares(b, wc, s);
    case Ask(call) => QueuedAfter(Turn(p, [Bar(call)]), s.pending);
  }

  lemma SavingSpares(b: Backend, wc: Tree, s: System)
    requires CanSave(s.pane) && Sound(s) && ScreenTells(b, wc, s.pane) && QueueSpares(b, wc, s.pending)
    ensures ScreenTells(b, wc, Step(s, Save).pane) && QueueSpares(b, wc, Step(s, Save).pending)
  {
    hide Rendered, IsDeleted, EditorShowsDraft;
    var p := s.pane;
    var x := p.(saving := true, error := None);
    StepKeepsSound(s, Save);
    RenderedFrame(p, x);
    RenderedIssues(p, x);
    QueuedAfter(Saved(p), s.pending);
    var t := Step(s, Save);
    forall r | r in t.pending && r !in s.pending
      ensures (r.op.Write? ==> r.op.file.path in wc ==> !CannotBeEdited(b, wc[r.op.file.path])) && !r.op.Bar?
    {
      assert r.op.Write? ==> !Locked(r.op.file) && p.file == Some(r.op.file);
    }
  }

  lemma AnswerSpares(b: Backend, w: World)
    requires Spares(b, w) && |w.sys.pending| > 0
    ensures Spares(b, w.(sys := AnsweredPane(b, w), wc := WrittenBy(b, w)))
    ensures forall path :: path in w.wc && CannotBeEdited(b, w.wc[path]) ==>
      path in WrittenBy(b, w) && WrittenBy(b, w)[path] == w.wc[path]
  {
    hide Step, EditorShowsDraft, IsDeleted;
    assert w.sys.pending[0] in w.sys.pending;
    AnswerKeepsScreen(b, w);
    AnswerKeepsQueue(b, w);
    var reply := ReplyOf(b, w, w.sys.pending[0].op);
    assert Enabled(w.sys, Answer(0, reply));
    StepKeepsSound(w.sys, Answer(0, reply));
  }

  lemma AnswerKeepsScreen(b: Backend, w: World)
    requires Spares(b, w) && |w.sys.pending| > 0
    ensures ScreenTells(b, WrittenBy(b, w), AnsweredPane(b, w).pane)
  {
    hide Rendered, IsDeleted, EditorShowsDraft;
    var p, r, reply := w.sys.pane, w.sys.pending[0], ReplyOf(b, w, w.sys.pending[0].op);
    assert r in w.sys.pending;
    match r.op
    case OpenRead(_, run) => RenderedFrame(p, OpenAnswered(p, r.workbench, run, reply));
    case ReRead(_, read, run) => RenderedFrame(p, RereadAnswered(p, r.workbench, read, run, reply));
    case CommittedRead(_, read, run) => RenderedFrame(p, CommittedAnswered(p, read, run, reply));
    case Write(file, draft) => RenderedFrame(p, WriteAnswered(p, file, draft, reply));
    case Bar(_) =>
  }

  lemma AnswerKeepsQueue(b: Backend, w: World)
    requires Spares(b, w) && |w.sys.pending| > 0
    ensures QueueSpares(b, WrittenBy(b, w), AnsweredPane(b, w).pending)
  {
    hide Rendered, IsDeleted, Answered, EditorShowsDraft;
    var p, r := w.sys.pane, w.sys.pending[0];
    var reply := ReplyOf(b, w, r.op);
    AnswersIssueNoWrites(p, r.workbench, r.op, reply);
    AnswerIssuesReads(p, r.workbench, r.op, reply);
    WithoutIsPart(w.sys.pending, 0);
    QueuedAfter(Answered(p, r.workbench, r.op, reply), Without(w.sys.pending, 0));
  }

  // --- every happening ---

  /** What the editor cannot hold is as it was. */
  ghost predicate Keeps(b: Backend, before: Tree, after: Tree) {
    forall path :: path in before && CannotBeEdited(b, before[path]) ==> path in after && after[path] == before[path]
  }

  lemma BarAnswerSpares(b: Backend, w: World, status: Status, id: string)
    requires Spares(b, w) && CanHappen(b, w, Answering(status, id)) && w.sys.pending[0].op.Bar?
    ensures Spares(b, Happens(b, w, Answering(status, id)))
    ensures Happens(b, w, Answering(status, id)).wc == w.wc
  {
    hide Step, AnsweredPane, Truthful, Sound, ScreenTells, QueueSpares;
    var props, call := w.sys.pane.props, w.sys.pending[0].op.call;
    assert call != Discard && call != Stash by { FrontSpares(b, w); }
    AnswerSpares(b, w);
    AnswerKeepsProps(b, w);
    var s1 := AnsweredPane(b, w);
    UnansweredSpares(b, w.wc, s1, Ask(StatusAfterAct));
    UnansweredSpares(b, w.wc, s1, Show(NewStatus(props, status)));
    UnansweredSpares(b, w.wc, s1, Show(Bumped(NewStatus(props, status))));
  }

  lemma FrontSpares(b: Backend, w: World)
    requires Spares(b, w) && |w.sys.pending| > 0
    ensures w.sys.pending[0].op != Bar(Discard) && w.sys.pending[0].op != Bar(Stash)
  {
    assert w.sys.pending[0] in w.sys.pending;
  }

  lemma AnswerKeepsProps(b: Backend, w: World)
    requires |w.sys.pending| > 0 && w.sys.pending[0].op.Bar?
    ensures AnsweredPane(b, w).pane == w.sys.pane
  {
  }

  lemma HappeningSpares(b: Backend, w: World, h: Happening)
    requires Spares(b, w) && CanHappen(b, w, h) && KeepsFiles(h)
    ensures Spares(b, Happens(b, w, h)) && Keeps(b, w.wc, Happens(b, w, h).wc)
  {
    hide Step, AnsweredPane, Truthful, Sound, ScreenTells, QueueSpares, CannotBeEdited;
    var props := w.sys.pane.props;
    match h
    case Typing(text) => UnansweredSpares(b, w.wc, w.sys, Type(text));
    case Saving => UnansweredSpares(b, w.wc, w.sys, Save);
    case Selecting(path) => UnansweredSpares(b, w.wc, w.sys, Show(props.(selected := path)));
    case Clicking(call) => UnansweredSpares(b, w.wc, w.sys, Ask(call));
    case Reloading => UnansweredSpares(b, w.wc, w.sys, Ask(StatusRead));
    case Bumping => UnansweredSpares(b, w.wc, w.sys, Show(Bumped(props)));
    case Answering(status, id) =>
      if w.sys.pending[0].op.Bar? {
        BarAnswerSpares(b, w, status, id);
      } else {
        AnswerSpares(b, w);
      }
  }

  lemma {:induction false} RunSpares(b: Backend, w: World, run: seq<Happening>)
    requires Spares(b, w) && CanRun(b, w, run) && AllKeepFiles(run)
    ensures Spares(b, Afterwards(b, w, run)) && Keeps(b, w.wc, Afterwards(b, w, run).wc)
    decreases |run|
  {
    hide Spares, Happens, CanHappen, CannotBeEdited;
    if run != [] {
      HappeningSpares(b, w, run[0]);
      RunSpares(b, Happens(b, w, run[0]), run[1..]);
    }
  }

  /**
   Over every run without a discard or a stash, saves overlapping whatever they like: a file that is
   no text or is longer than the limit keeps every byte, and no save of it is ever under way.
   */
  lemma WhatCannotBeEditedIsKept(b: Backend, w: World, run: seq<Happening>, path: Path)
    requires Opening(b, w) && CanRun(b, w, run) && AllKeepFiles(run)
    requires path in w.wc && (!w.wc[path].decodes || |w.wc[path].text| > b.limit)
    ensures var v := Afterwards(b, w, run);
      && path in v.wc && v.wc[path] == w.wc[path]
      && forall r :: r in v.sys.pending && r.op.Write? ==> r.op.file.path != path
  {
    OpeningSpares(b, w);
    RunSpares(b, w, run);
  }

  lemma OpeningSpares(b: Backend, w: World)
    requires Opening(b, w)
    ensures Spares(b, w)
  {
    hide Find, MonacoLanguage;
    var props := w.sys.pane.props;
    StartIsSound(props);
    assert forall r :: r in w.sys.pending ==> r.op.OpenRead? || r.op.CommittedRead?;
  }
}
