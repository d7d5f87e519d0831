/** The invariant of EditorBase, event by event. */
module EditorBaseSteps {
  import opened Checkout
  import opened CodePane
  import opened EditorBase
  import opened EditorMirror
  import opened EditorSafety
  import opened EditorSelection
  import opened Fifo
  import opened Wrappers

  // --- asking, typing, saving ---

  lemma AskFacts(s: System, call: BarCall)
    ensures var t := Step(s, Ask(call));
            && t.pane == s.pane
            && (Loading(t) <==> Loading(s)) && (Writing(t) <==> Writing(s))
            && (BaseComing(t) <==> BaseComing(s)) && (Rereading(t) <==> Rereading(s))
            && (forall c :: Asked(t, c) <==> Asked(s, c) || c == call)
            && (forall r :: r in t.pending && r !in s.pending ==> r.op == Bar(call))
  {
    var asked := Pending(s.pane.props.workbench, Bar(call));
    var t := Step(s, Ask(call));
    assert t.pending == s.pending + [asked];
    assert forall r :: r in t.pending <==> r in s.pending || r == asked;
  }

  lemma AskingKeepsTidy(b: Backend, w: World, u: World, call: BarCall, path: Path)
    requires Tidy(b, w, path)
    requires u == w.(sys := Step(w.sys, Ask(call)), reloads := u.reloads)
    requires u.reloads == w.reloads || call.StatusRead?
    requires call.Discard? || call.Stash? ==> !Writing(w.sys)
    ensures Tidy(b, u, path)
  {
    hide Step, IsDeleted, Truthful, Mirrored, Selected, Sound, Serve;
    AskFacts(w.sys, call);
    AskKeepsSelected(w.sys, call, path);
    StepKeepsSound(w.sys, Ask(call));
  }

  /** Steps that change nothing the invariant looks at but the draft and the saves in flight. */
  lemma TypingKeepsTidy(b: Backend, w: World, text: Text, path: Path) returns (path': Path)
    requires Tidy(b, w, path) && CanType(w.sys.pane)
    ensures Tidy(b, Noted(w, w.(sys := Step(w.sys, Type(text)))), path')
  {
    hide Step, IsDeleted, Truthful, Selected, Sound, Serve;
    path' := StepKeepsSelected(w.sys, Type(text), path);
    StepKeepsSound(w.sys, Type(text));
    TypeFacts(w.sys, text);
    var u := Noted(w, w.(sys := Step(w.sys, Type(text))));
    SameQueue(w.sys, u.sys);
  }

  /** Two systems with one queue, alike in what makes an answer count. */
  lemma SameQueue(s: System, t: System)
    requires t.pending == s.pending && t.pane.openRun == s.pane.openRun && t.pane.baseRun == s.pane.baseRun
    requires t.pane.rereadRun == s.pane.rereadRun && t.pane.read == s.pane.read
    ensures (Loading(t) <==> Loading(s)) && (Writing(t) <==> Writing(s))
    ensures (BaseComing(t) <==> BaseComing(s)) && (Rereading(t) <==> Rereading(s))
    ensures forall c :: Asked(t, c) <==> Asked(s, c)
  {
  }

  lemma SavingKeepsTidy(b: Backend, w: World, path: Path) returns (path': Path)
    requires Tidy(b, w, path) && CanSave(w.sys.pane) && Orderly(b, w, Saving)
    ensures Tidy(b, Noted(w, w.(sys := Step(w.sys, Save))), path')
  {
    hide Step, IsDeleted, Truthful, Selected, Serve;
    path' := StepKeepsSelected(w.sys, Save, path);
    StepKeepsSound(w.sys, Save);
    var u := Noted(w, w.(sys := Step(w.sys, Save)));
    if w.sys.pane.file.Some? && !Locked(w.sys.pane.file.value) {
      SaveFactsInFull(w.sys);
      var write := Pending(w.sys.pane.props.workbench, Write(w.sys.pane.file.value, w.sys.pane.draft));
      assert forall r :: r in u.sys.pending <==> r in w.sys.pending || r == write;
      AppendedWrite(w.sys, u.sys, write);
    } else {
      NoSave(w.sys);
    }
  }

  lemma AppendedWrite(s: System, t: System, write: Pending<Request>)
    requires t.pending == s.pending + [write] && write.op.Write? && t.pane.openRun == s.pane.openRun
    requires t.pane.baseRun == s.pane.baseRun && t.pane.rereadRun == s.pane.rereadRun && t.pane.read == s.pane.read
    ensures (Loading(t) <==> Loading(s)) && Writing(t)
    ensures (BaseComing(t) <==> BaseComing(s)) && (Rereading(t) <==> Rereading(s))
    ensures forall c :: Asked(t, c) <==> Asked(s, c)
  {
    assert forall r :: r in t.pending <==> r in s.pending || r == write;
  }

  /** A save of a locked file, or of none, asks for nothing. */
  lemma NoSave(s: System)
    requires Sound(s) && Enabled(s, Save) && !(s.pane.file.Some? && !Locked(s.pane.file.value))
    ensures Step(s, Save) == s
  {
    assert s.pending + Sent(s.pane.props.workbench, []) == s.pending;
  }

  // --- showing something else ---

  /** What a new render may be shown with: the checkout as it was, or restored. */
  ghost predicate Showable(b: Backend, w: World, u: World, props: Props) {
    && u == Noted(w, w.(sys := Step(w.sys, Show(props)), wc := u.wc, restoring := u.restoring))
    && ((u.wc == w.wc && u.restoring == w.restoring) || Restored(w, u, props))
  }

  /** A discard or a stash: the working copy is HEAD's, and the version is bumped. */
  ghost predicate Restored(w: World, u: World, props: Props) {
    && Agrees(u.wc, w.head) && u.restoring == Some(u.sys.pane.read)
    && !Writing(w.sys)
    && props.version != w.sys.pane.props.version && !IsDeleted(props)
  }

  lemma KeptTurns(b: Backend, w: World, u: World, props: Props, path: Path)
    requires Steady(b, w, path) && Showable(b, w, u, props) && OpenKey(props) == OpenKey(w.sys.pane.props)
    requires Follows(w.sys.pane, w.sys.pane.(props := props), w.sys.pending, u.sys)
    ensures Turns(b, u)
  {
    hide Step, IsDeleted, Truthful, Selected, Sound, Serve, BaseKnown, RecordKept, OpenEffect, BaseKey;
    assert Loading(u.sys) <==> Loading(w.sys);
    assert Writing(u.sys) <==> Writing(w.sys);
    assert forall c :: Asked(u.sys, c) <==> Asked(w.sys, c);
  }

  lemma KeptBase(b: Backend, w: World, u: World, props: Props, path: Path)
    requires Steady(b, w, path) && Showable(b, w, u, props) && OpenKey(props) == OpenKey(w.sys.pane.props)
    requires Follows(w.sys.pane, w.sys.pane.(props := props), w.sys.pending, u.sys)
    requires Selected(u.sys, path) && Turns(b, u) && RecordKept(b, u)
    requires !Loading(u.sys) && u.sys.pane.file.Some?
    ensures BaseKnown(b, u)
  {
    hide Step, IsDeleted, OpenEffect, Serve;
    assert !Loading(w.sys);
    var p, q := w.sys.pane, u.sys.pane;
    assert BaseKnown(b, w);
    if BaseKey(p.(props := props)) != BaseKey(p) {
      assert Rederived(p.(props := props), u.sys);
    }
  }

  lemma SameStatusSameBase(p: Pane, props: Props)
    ensures props.selected == p.props.selected && props.status == p.props.status ==>
              BaseKey(p.(props := props)) == BaseKey(p)
  {
  }

  lemma KeptRecord(b: Backend, w: World, u: World, props: Props, path: Path)
    requires Steady(b, w, path) && Showable(b, w, u, props) && OpenKey(props) == OpenKey(w.sys.pane.props)
    requires Follows(w.sys.pane, w.sys.pane.(props := props), w.sys.pending, u.sys)
    ensures RecordKept(b, u)
  {
    hide Step, IsDeleted, OpenEffect, Serve, Truthful, Turns, Selected, Sound, BaseKnown;
    var p, q := w.sys.pane, u.sys.pane;
    forall r | r in u.sys.pending ensures HeadReadCurrent(q, r.op) && (r.op.Write? ==> ReadsBack(r.op.draft)) {
      if r in w.sys.pending && r.op.CommittedRead? {
        assert HeadReadCurrent(p, r.op);
      }
    }
  }

  lemma ShowKeepsKept(b: Backend, w: World, u: World, props: Props, path: Path)
    requires Steady(b, w, path) && Showable(b, w, u, props) && OpenKey(props) == OpenKey(w.sys.pane.props)
    ensures Steady(b, u, path)
  {
    hide Turns, RecordKept, BaseKnown, IsDeleted, Rendered, Sound, Selected;
    var p := w.sys.pane;
    var x := p.(props := props);
    RenderFacts(p, x, w.sys.pending);
    StepKeepsSound(w.sys, Show(props));
    SameScreenKeepsSelected(w.sys, x, path);
    RenderKeepsSelected(p, x, w.sys.pending, path);
    KeptTurns(b, w, u, props, path);
    KeptRecord(b, w, u, props, path);
    if !Loading(u.sys) && u.sys.pane.file.Some? {
      KeptBase(b, w, u, props, path);
    }
  }

  // --- a selection, or a file deleted or restored under it ---

  lemma MovedTurns(b: Backend, w: World, u: World, props: Props, path: Path)
    requires Steady(b, w, path) && Showable(b, w, u, props) && OpenKey(props) != OpenKey(w.sys.pane.props)
    requires !Writing(w.sys)
    requires Follows(w.sys.pane, w.sys.pane.(props := props), w.sys.pending, u.sys)
    ensures Turns(b, u)
  {
    hide Step, IsDeleted, Truthful, Selected, Sound, Serve, BaseKnown, RecordKept, BaseKey;
    assert !Writing(u.sys);
    assert forall c :: Asked(u.sys, c) <==> Asked(w.sys, c);
    assert u.sys.pane.read == w.sys.pane.read ==> u.sys.pane.file.Some? ==> u.sys.pane.file == w.sys.pane.file;
  }

  lemma MovedRecord(b: Backend, w: World, u: World, props: Props, path: Path)
    requires Steady(b, w, path) && Showable(b, w, u, props) && OpenKey(props) != OpenKey(w.sys.pane.props)
    requires Follows(w.sys.pane, w.sys.pane.(props := props), w.sys.pending, u.sys)
    ensures RecordKept(b, u)
  {
    hide Step, IsDeleted, Serve, Truthful, Turns, Selected, Sound, BaseKnown;
    var p, q := w.sys.pane, u.sys.pane;
    forall r | r in u.sys.pending ensures HeadReadCurrent(q, r.op) && (r.op.Write? ==> ReadsBack(r.op.draft)) {
      if r in w.sys.pending && r.op.CommittedRead? {
        assert HeadReadCurrent(p, r.op);
      }
    }
  }

  lemma MovedBase(b: Backend, w: World, u: World, props: Props)
    requires u.sys.pane.props == props
    requires OpenKey(props) != OpenKey(w.sys.pane.props)
    requires Follows(w.sys.pane, w.sys.pane.(props := props), w.sys.pending, u.sys)
    requires props.selected != "" && !IsDeleted(props) ==> Loading(u.sys)
    requires !Loading(u.sys) && u.sys.pane.file.Some?
    ensures BaseKnown(b, u)
  {
    assert IsDeleted(props) && u.sys.pane.read == w.sys.pane.read + 1;
    DeletedHasACommittedPath(props);
  }

  lemma DeletedHasACommittedPath(props: Props)
    requires IsDeleted(props)
    ensures CommittedPath(props).Some?
  {
  }

  lemma ShowKeepsMoved(b: Backend, w: World, u: World, props: Props, path: Path) returns (path': Path)
    requires Steady(b, w, path) && Showable(b, w, u, props) && OpenKey(props) != OpenKey(w.sys.pane.props)
    requires !Writing(w.sys)
    ensures Steady(b, u, path')
  {
    hide Turns, RecordKept, BaseKnown, IsDeleted, Rendered, Sound;
    var p := w.sys.pane;
    RenderFacts(p, p.(props := props), w.sys.pending);
    StepKeepsSound(w.sys, Show(props));
    path' := StepKeepsSelected(w.sys, Show(props), path);
    MoveFacts(w.sys, props);
    MovedTurns(b, w, u, props, path);
    MovedRecord(b, w, u, props, path);
    if !Loading(u.sys) && u.sys.pane.file.Some? {
      MovedBase(b, w, u, props);
    }
  }

  lemma ShowKeepsSteady(b: Backend, w: World, u: World, props: Props, path: Path) returns (path': Path)
    requires Steady(b, w, path) && Showable(b, w, u, props)
    requires OpenKey(props) != OpenKey(w.sys.pane.props) ==> !Writing(w.sys)
    ensures Steady(b, u, path')
  {
    hide Steady, Showable, IsDeleted;
    if OpenKey(props) == OpenKey(w.sys.pane.props) {
      ShowKeepsKept(b, w, u, props, path);
      path' := path;
    } else {
      path' := ShowKeepsMoved(b, w, u, props, path);
    }
  }

  // --- answers ---

  /** The front call leaves the queue and moves nothing on screen. */
  lemma DroppedKeepsSteady(b: Backend, w: World, u: World, path: Path)
    requires Steady(b, w, path) && |w.sys.pending| > 0
    requires u == w.(sys := System(w.sys.pane, Without(w.sys.pending, 0)))
    requires var r := w.sys.pending[0].op;
             !Live(w.sys.pane, r) && !r.Write? && !(r.CommittedRead? && r.run == w.sys.pane.baseRun) &&
             !(r.ReRead? && r.run == w.sys.pane.rereadRun && r.read == w.sys.pane.read)
    ensures Steady(b, u, path)
  {
    hide IsDeleted, Truthful, Serve, Mirrored, Selected, Sound, TruthfulAbout, Agrees;
    hide BaseText, SideOf, ServeHead, CommittedPath, IsNew;
    DropKeepsSelected(w.sys, 0, path);
    WithoutIsPart(w.sys.pending, 0);
    DropKeepsSound(w.sys);
    assert Rereading(w.sys) ==> Rereading(u.sys);
    assert BaseComing(w.sys) ==> BaseComing(u.sys);
    assert Writing(w.sys) <==> Writing(u.sys);
    assert forall c :: Asked(u.sys, c) ==> Asked(w.sys, c);
  }

  lemma DropKeepsSound(s: System)
    requires Sound(s) && |s.pending| > 0
    ensures Sound(System(s.pane, Without(s.pending, 0)))
  {
    WithoutIsPart(s.pending, 0);
  }

  lemma TheAnswerFits(b: Backend, w: World)
    requires |w.sys.pending| > 0
    ensures Enabled(w.sys, Answer(0, ReplyOf(b, w, w.sys.pending[0].op)))
    ensures Fits(w.sys.pending[0].op, ReplyOf(b, w, w.sys.pending[0].op))
  {
  }

  /** The file the selection waited for is in: it is the working copy's, and the base is derived from it. */
  lemma OpenedKeepsSteady(b: Backend, w: World, u: World, path: Path) returns (path': Path)
    requires Steady(b, w, path) && |w.sys.pending| > 0 && Live(w.sys.pane, w.sys.pending[0].op)
    requires u == Noted(w, w.(sys := AnsweredPane(b, w)))
    ensures Steady(b, u, path')
  {
    hide Rendered, IsDeleted, Truthful, Serve, OpenEffect, CommittedPath, IsNew, Selected, Sound;
    TheAnswerFits(b, w);
    var p, r := w.sys.pane, w.sys.pending[0];
    var reply := ReplyOf(b, w, r.op);
    var rest := Without(w.sys.pending, 0);
    var x := OpenAnswered(p, r.workbench, r.op.run, reply);
    assert r in w.sys.pending;
    assert Loading(w.sys);
    path' := StepKeepsSelected(w.sys, Answer(0, reply), path);
    StepKeepsSound(w.sys, Answer(0, reply));
    RenderFacts(p, x, rest);
    WithoutIsPart(w.sys.pending, 0);
    assert u.sys == After(Rendered(p, x), rest);
    assert !Writing(u.sys);
    assert forall r :: r in u.sys.pending && r !in rest ==> HeadReadCurrent(u.sys.pane, r.op);
    OldReadsStay(p, x, rest, u.sys);
    if !Loading(u.sys) && u.sys.pane.file.Some? {
      assert u.sys.pane.read == p.read + 1;
      assert Rederived(x, u.sys);
      OpenedBase(b, w, u, x, path');
    }
  }

  /** What was asked of HEAD before a render is current after it, or abandoned. */
  lemma OldReadsStay(p: Pane, x: Pane, pending: seq<Pending<Request>>, s: System)
    requires Follows(p, x, pending, s)
    requires x.baseRun == p.baseRun && x.read >= p.read && x.props == p.props
    requires forall r :: r in pending ==> HeadReadCurrent(p, r.op)
    ensures forall r :: r in pending ==> HeadReadCurrent(s.pane, r.op)
  {
    hide OpenEffect, IsDeleted;
    forall r | r in pending ensures HeadReadCurrent(s.pane, r.op) {
      assert HeadReadCurrent(p, r.op);
    }
  }

  lemma OpenedBase(b: Backend, w: World, u: World, x: Pane, path: Path)
    requires Selected(u.sys, path) && !Loading(u.sys) && u.sys.pane.file.Some?
    requires u.sys.pane.props == w.sys.pane.props && u.taken == SavedText(u.sys.pane)
    requires Rederived(x, u.sys) && x.read == u.sys.pane.read && x.file == u.sys.pane.file
    ensures BaseKnown(b, u)
  {
    hide IsDeleted, Serve;
  }

  /** HEAD's side is in: it becomes the base, and nothing else moves. */
  lemma CommittedFacts(b: Backend, w: World)
    requires |w.sys.pending| > 0
    requires w.sys.pending[0].op.CommittedRead? && w.sys.pending[0].op.run == w.sys.pane.baseRun
    ensures var p, r, s := w.sys.pane, w.sys.pending[0].op, AnsweredPane(b, w);
            && s.pane == p.(committed := Some(Committed(r.read, SideOf(ServeHead(b, w.head, r.path)))),
                            editor := s.pane.editor)
            && s.pending == Without(w.sys.pending, 0)
  {
    hide IsDeleted, ServeHead, Mount, CommittedPath, IsNew;
    TheAnswerFits(b, w);
    var p, r := w.sys.pane, w.sys.pending[0];
    var x := CommittedAnswered(p, r.op.read, r.op.run, ReplyOf(b, w, r.op));
    OnlyMounts(p, x);
    assert Without(w.sys.pending, 0) + Sent(p.props.workbench, []) == Without(w.sys.pending, 0);
  }

  lemma CommittedKeepsSteady(b: Backend, w: World, u: World, path: Path) returns (path': Path)
    requires Steady(b, w, path) && |w.sys.pending| > 0
    requires w.sys.pending[0].op.CommittedRead? && w.sys.pending[0].op.run == w.sys.pane.baseRun
    requires u == Noted(w, w.(sys := AnsweredPane(b, w)))
    ensures Steady(b, u, path')
  {
    hide IsDeleted, Truthful, Serve, Selected, Sound, ServeHead, AnsweredPane, SideOf;
    var r := w.sys.pending[0];
    assert r in w.sys.pending;
    assert HeadReadCurrent(w.sys.pane, r.op);
    path' := AnswerStaysSound(b, w, path);
    CommittedFacts(b, w);
    WithoutIsPart(w.sys.pending, 0);
    assert Rereading(w.sys) ==> Rereading(u.sys);
    assert Writing(w.sys) <==> Writing(u.sys);
    assert forall c :: Asked(u.sys, c) ==> Asked(w.sys, c);
    assert Loading(w.sys) <==> Loading(u.sys);
  }

  lemma AnswerStaysSound(b: Backend, w: World, path: Path) returns (path': Path)
    requires Sound(w.sys) && Selected(w.sys, path) && |w.sys.pending| > 0
    ensures Sound(AnsweredPane(b, w)) && Selected(AnsweredPane(b, w), path')
  {
    hide Sound, Selected, Step;
    TheAnswerFits(b, w);
    var e := Answer(0, ReplyOf(b, w, w.sys.pending[0].op));
    StepKeepsSound(w.sys, e);
    path' := StepKeepsSelected(w.sys, e, path);
  }

  /** The re-read that counts finds the text on record: what was being restored is there. */
  lemma RereadSettles(b: Backend, w: World, u: World, path: Path)
    requires Steady(b, w, path) && |w.sys.pending| > 0
    requires w.sys.pending[0].op.ReRead? && w.sys.pending[0].op.read == w.sys.pane.read
    requires w.sys.pane.file.Some? ==> Mirrored(b, w.wc, w.sys.pane)
    requires u == w.(sys := System(w.sys.pane, Without(w.sys.pending, 0)), restoring := None)
    ensures Steady(b, u, path)
  {
    hide IsDeleted, Truthful, Serve, Selected;
    DropKeepsSelected(w.sys, 0, path);
    WithoutIsPart(w.sys.pending, 0);
    DropKeepsSound(w.sys);
    assert BaseComing(w.sys) ==> BaseComing(u.sys);
    assert Writing(w.sys) <==> Writing(u.sys);
    assert forall c :: Asked(u.sys, c) ==> Asked(w.sys, c);
  }

  /** The re-read finds another text, and the screen is clean: it is replaced, and the base derived anew. */
  lemma RereadReplaces(b: Backend, w: World, u: World, path: Path) returns (path': Path)
    requires Steady(b, w, path) && |w.sys.pending| > 0 && Agrees(w.wc, w.head) && !Writing(w.sys)
    requires var r, p := w.sys.pending[0].op, w.sys.pane;
             && r.ReRead? && r.read == p.read && r.run == p.rereadRun
             && p.file.Some? && !p.file.value.deleted && Clean(p)
             && r.path in w.wc && Serve(b, r.path, w.wc[r.path]).text != p.file.value.text
    requires u == Noted(w, w.(sys := AnsweredPane(b, w), restoring := None))
    ensures Steady(b, u, path')
  {
    hide Rendered, IsDeleted, Truthful, Serve, OpenEffect, CommittedPath, IsNew, Selected, Sound;
    TheAnswerFits(b, w);
    var p, r := w.sys.pane, w.sys.pending[0];
    var rest := Without(w.sys.pending, 0);
    var x := RereadAnswered(p, r.workbench, r.op.read, r.op.run, ReplyOf(b, w, r.op));
    path' := AnswerStaysSound(b, w, path);
    RenderFacts(p, x, rest);
    WithoutIsPart(w.sys.pending, 0);
    assert u.sys == After(Rendered(p, x), rest);
    assert !Writing(u.sys);
    assert Loading(u.sys) <==> Loading(w.sys);
    OldReadsStay(p, x, rest, u.sys);
    assert Rederived(x, u.sys);
    RestoredBase(b, u, x);
  }

  lemma RestoredBase(b: Backend, u: World, x: Pane)
    requires u.sys.pane.file.Some?
    requires u.taken == SavedText(u.sys.pane)
    requires Rederived(x, u.sys) && x.read == u.sys.pane.read && x.file == u.sys.pane.file
    ensures BaseKnown(b, u)
  {
    hide IsDeleted, Serve;
  }

  /** The re-read finds nothing: the file was restored to not being there. */
  lemma RereadCloses(b: Backend, w: World, u: World, path: Path) returns (path': Path)
    requires Steady(b, w, path) && |w.sys.pending| > 0 && !Writing(w.sys)
    requires var r, p := w.sys.pending[0].op, w.sys.pane;
             && r.ReRead? && r.read == p.read && r.run == p.rereadRun
             && p.file.Some? && Clean(p) && r.path !in w.wc
    requires u == Noted(w, w.(sys := AnsweredPane(b, w), restoring := None))
    ensures Steady(b, u, path')
  {
    hide IsDeleted, Truthful, Serve, Selected, Sound, Mount, CommittedPath, IsNew;
    TheAnswerFits(b, w);
    var p, r := w.sys.pane, w.sys.pending[0];
    var rest := Without(w.sys.pending, 0);
    var x := RereadAnswered(p, r.workbench, r.op.read, r.op.run, ReplyOf(b, w, r.op));
    path' := AnswerStaysSound(b, w, path);
    OnlyMounts(p, x);
    WithoutIsPart(w.sys.pending, 0);
    assert rest + Sent(p.props.workbench, []) == rest;
    assert u.sys == System(Mount(x), rest);
    assert Writing(w.sys) <==> Writing(u.sys);
    assert Loading(w.sys) <==> Loading(u.sys);
    assert forall c :: Asked(u.sys, c) ==> Asked(w.sys, c);
  }

  /** A re-read that finds another text says so over unsaved edits. */
  lemma CleanOrOvertaken(b: Backend, w: World)
    requires |w.sys.pending| > 0 && w.sys.pane.file.Some?
    requires var r, p := w.sys.pending[0].op, w.sys.pane;
             && r.ReRead? && r.read == p.read && r.run == p.rereadRun
             && (r.path in w.wc ==> Serve(b, r.path, w.wc[r.path]).text != p.file.value.text)
    ensures AnsweredPane(b, w).pane.overtaken.None? ==> Clean(w.sys.pane)
  {
    hide Rendered, IsDeleted, Serve;
    TheAnswerFits(b, w);
    var r := w.sys.pending[0];
    RenderedFrame(w.sys.pane, RereadAnswered(w.sys.pane, r.workbench, r.op.read, r.op.run, ReplyOf(b, w, r.op)));
  }

  lemma RereadKeepsSteady(b: Backend, w: World, u: World, path: Path) returns (path': Path)
    requires Steady(b, w, path) && |w.sys.pending| > 0
    requires var r := w.sys.pending[0].op;
             r.ReRead? && r.run == w.sys.pane.rereadRun && r.read == w.sys.pane.read
    requires u.sys.pane.overtaken.None?
    requires u == Noted(w, w.(sys := AnsweredPane(b, w), restoring := None))
    ensures Steady(b, u, path')
  {
    hide IsDeleted, Truthful, Serve, Rendered, BaseKnown;
    var p, r := w.sys.pane, w.sys.pending[0];
    assert r in w.sys.pending;
    path' := path;
    if p.file.None? || (r.op.path in w.wc && Serve(b, r.op.path, w.wc[r.op.path]).text == p.file.value.text) {
      InertAnswer(b, w, RereadAnswered(p, r.workbench, r.op.read, r.op.run, ReplyOf(b, w, r.op)));
      RereadSettles(b, w, u, path);
    } else {
      assert Restoring(w);
      CleanOrOvertaken(b, w);
      if r.op.path in w.wc {
        path' := RereadReplaces(b, w, u, path);
      } else {
        path' := RereadCloses(b, w, u, path);
      }
    }
  }

  /** An answer that leaves the pane alone only leaves the queue. */
  lemma InertAnswer(b: Backend, w: World, x: Pane)
    requires Sound(w.sys) && |w.sys.pending| > 0 && x == w.sys.pane
    requires var r, reply := w.sys.pending[0], ReplyOf(b, w, w.sys.pending[0].op);
             match r.op
             case OpenRead(_, run) =>
               reply.Content? || reply.Refused? ==> x == OpenAnswered(w.sys.pane, r.workbench, run, reply)
             case ReRead(_, read, run) =>
               reply.Content? || reply.Refused? ==> x == RereadAnswered(w.sys.pane, r.workbench, read, run, reply)
             case CommittedRead(_, read, run) =>
               reply.AtHead? || reply.Refused? ==> x == CommittedAnswered(w.sys.pane, read, run, reply)
             case Write(_, _) => false
             case Bar(_) => true
    ensures AnsweredPane(b, w) == System(w.sys.pane, Without(w.sys.pending, 0))
  {
    hide Rendered, IsDeleted, Serve, ServeHead;
    TheAnswerFits(b, w);
    NothingToRender(w.sys.pane);
    assert Without(w.sys.pending, 0) + Sent(w.sys.pane.props.workbench, []) == Without(w.sys.pending, 0);
  }

  /** A save answered: the file on record is the one it captured, with the text the working copy now holds. */
  lemma WriteFacts(b: Backend, w: World)
    requires |w.sys.pending| > 0 && w.sys.pending[0].op.Write?
    ensures var p, r, s := w.sys.pane, w.sys.pending[0].op, AnsweredPane(b, w);
            && s.pending == Without(w.sys.pending, 0)
            && (|r.draft| > b.limit ==> s.pane == p.(saving := false, error := s.pane.error, editor := s.pane.editor))
            && (|r.draft| <= b.limit ==>
                  s.pane == p.(file := Some(r.file.(text := r.draft)), overtaken := None, saving := false,
                               editor := s.pane.editor))
  {
    hide IsDeleted, Mount, CommittedPath, IsNew;
    TheAnswerFits(b, w);
    var p, r := w.sys.pane, w.sys.pending[0];
    var x := WriteAnswered(p, r.op.file, r.op.draft, ReplyOf(b, w, r.op));
    OnlyMounts(p, x);
    assert Without(w.sys.pending, 0) + Sent(p.props.workbench, []) == Without(w.sys.pending, 0);
  }

  lemma ServesWhatWasWritten(b: Backend, path: Path, text: Text)
    requires |text| <= b.limit && ReadsBack(text)
    ensures Serve(b, path, Blob(text, true)).text == text
  {
  }

  lemma WriteKeepsSteady(b: Backend, w: World, u: World, path: Path) returns (path': Path)
    requires Steady(b, w, path) && |w.sys.pending| > 0 && w.sys.pending[0].op.Write? && BaseIsHeads(b, w)
    requires var r := w.sys.pending[0].op;
             u == Noted(w, w.(sys := AnsweredPane(b, w), reloads := u.reloads,
                     wc := if |r.draft| > b.limit then w.wc else w.wc[r.file.path := Blob(r.draft, true)]))
    ensures Steady(b, u, path')
  {
    hide IsDeleted, Truthful, Serve, Selected, AnsweredPane, HeadTruth;
    var r := w.sys.pending[0];
    assert r in w.sys.pending;
    path' := AnswerStaysSound(b, w, path);
    WriteFacts(b, w);
    WithoutIsPart(w.sys.pending, 0);
    assert Writing(w.sys);
    assert BaseComing(w.sys) <==> BaseComing(u.sys);
    assert Loading(w.sys) <==> Loading(u.sys);
    assert forall c :: Asked(u.sys, c) <==> Asked(w.sys, c);
    SubjectOfTheWrite(w.sys, r, path);
    if |r.op.draft| <= b.limit {
      ServesWhatWasWritten(b, r.op.file.path, r.op.draft);
    }
  }

  /** A save in flight on a settled selection is about the file on screen, which is not a deleted one. */
  lemma SubjectOfTheWrite(s: System, r: Pending<Request>, path: Path)
    requires Sound(s) && Selected(s, path) && r in s.pending && r.op.Write? && !Loading(s) && s.pane.file.Some?
    ensures s.pane.file.value.path == r.op.file.path && !s.pane.file.value.deleted && !r.op.file.deleted
  {
  }

  // --- every happening ---

  lemma FrontLeaves(s: System)
    requires |s.pending| > 0
    ensures var t := System(s.pane, Without(s.pending, 0));
            && (forall c :: Asked(t, c) ==> Asked(s, c))
            && (forall c :: Asked(s, c) && s.pending[0].op != Bar(c) ==> Asked(t, c))
  {
    WithoutIsPart(s.pending, 0);
  }

  /** What an answer adds to the queue is no call of the bar, and what it removes is the front. */
  lemma AnswerKeepsAsked(b: Backend, w: World)
    requires |w.sys.pending| > 0
    ensures forall c :: Asked(w.sys, c) && w.sys.pending[0].op != Bar(c) ==> Asked(AnsweredPane(b, w), c)
    ensures AnsweredPane(b, w).pane.props == w.sys.pane.props
  {
    hide Rendered, IsDeleted, Serve, ServeHead;
    TheAnswerFits(b, w);
    var p, r, reply := w.sys.pane, w.sys.pending[0], ReplyOf(b, w, w.sys.pending[0].op);
    var t := Answered(p, r.workbench, r.op, reply);
    FrontLeaves(w.sys);
    QueuedAfter(t, Without(w.sys.pending, 0));
    match r.op
    case OpenRead(_, run) => RenderedFrame(p, OpenAnswered(p, r.workbench, run, reply));
    case ReRead(_, read, run) => RenderedFrame(p, RereadAnswered(p, r.workbench, read, run, reply));
    case CommittedRead(_, read, run) => RenderedFrame(p, CommittedAnswered(p, read, run, reply));
    case Write(file, draft) => RenderedFrame(p, WriteAnswered(p, file, draft, reply));
    case Bar(_) =>
  }

  /** The answers to the pane's own calls. */
  lemma OwnAnswerKeepsTidy(b: Backend, w: World, status: Status, id: string, path: Path) returns (path': Path)
    requires Tidy(b, w, path) && CanHappen(b, w, Answering(status, id)) && !w.sys.pending[0].op.Bar?
    requires Happens(b, w, Answering(status, id)).sys.pane.overtaken.None? && BaseIsHeads(b, w)
    ensures Tidy(b, Happens(b, w, Answering(status, id)), path')
  {
    hide Steady, AnsweredPane, Serve, IsDeleted, Truthful;
    var p, r := w.sys.pane, w.sys.pending[0];
    var u := Happens(b, w, Answering(status, id));
    AnswerKeepsAsked(b, w);
    path' := path;
    if r.op.Write? {
      path' := WriteKeepsSteady(b, w, u, path);
    } else if Live(p, r.op) {
      path' := OpenedKeepsSteady(b, w, u, path);
    } else if r.op.CommittedRead? && r.op.run == p.baseRun {
      path' := CommittedKeepsSteady(b, w, u, path);
    } else if r.op.ReRead? && r.op.run == p.rereadRun && r.op.read == p.read {
      path' := RereadKeepsSteady(b, w, u, path);
    } else {
      StaleIsDropped(b, w, path);
      DroppedKeepsSteady(b, w, u, path);
    }
  }

  lemma StaleIsDropped(b: Backend, w: World, path: Path)
    requires Steady(b, w, path) && |w.sys.pending| > 0
    requires var p, r := w.sys.pane, w.sys.pending[0].op;
             !r.Write? && !Live(p, r) && !(r.CommittedRead? && r.run == p.baseRun) &&
             !(r.ReRead? && r.run == p.rereadRun && r.read == p.read)
    ensures AnsweredPane(b, w) == System(w.sys.pane, Without(w.sys.pending, 0))
  {
    hide IsDeleted, Serve, ServeHead, AnsweredPane;
    InertAnswer(b, w, w.sys.pane);
  }

  lemma BarIsDropped(b: Backend, w: World, path: Path)
    requires Steady(b, w, path) && |w.sys.pending| > 0 && w.sys.pending[0].op.Bar?
    ensures AnsweredPane(b, w) == System(w.sys.pane, Without(w.sys.pending, 0))
    ensures Steady(b, w.(sys := AnsweredPane(b, w)), path)
  {
    hide Steady, AnsweredPane, IsDeleted;
    StaleIsDropped(b, w, path);
    DroppedKeepsSteady(b, w, w.(sys := AnsweredPane(b, w)), path);
  }

  lemma ShowsProps(s: System, props: Props)
    ensures Step(s, Show(props)).pane.props == props
  {
    hide Rendered;
    RenderedFrame(s.pane, s.pane.(props := props));
  }

  /** A true status cannot call the file of a save in flight deleted. */
  lemma NoFlipUnderAWrite(b: Backend, w: World, props: Props, path: Path)
    requires Steady(b, w, path) && Truthful(b, props.status, w.wc, w.head, w.headId)
    requires props.selected == w.sys.pane.props.selected && props.workbench == w.sys.pane.props.workbench
    requires OpenKey(props) != OpenKey(w.sys.pane.props)
    ensures !Writing(w.sys)
  {
    hide Serve, Truthful;
    if Writing(w.sys) {
      var r :| r in w.sys.pending && r.op.Write?;
      assert !Loading(w.sys) && !IsDeleted(w.sys.pane.props);
      SubjectOfTheWrite(w.sys, r, path);
      DeletedIsGone(b, props, w);
    }
  }

  lemma DeletedIsGone(b: Backend, props: Props, w: World)
    requires Truthful(b, props.status, w.wc, w.head, w.headId)
    ensures IsDeleted(props) ==> props.selected !in w.wc && props.selected in w.head
  {
    assert TruthfulAbout(b, Find(props.status.changes, props.selected), props.selected, w.wc, w.head);
  }

  /** A status arrives, with or without a version bump, and it is true. */
  lemma StatusKeepsTidy(b: Backend, w: World, u: World, props: Props, path: Path) returns (path': Path)
    requires Steady(b, w, path) && (w.headId.Some? ==> w.headId.value in w.ids)
    requires props.selected == w.sys.pane.props.selected && props.workbench == w.sys.pane.props.workbench
    requires Truthful(b, props.status, u.wc, u.head, u.headId)
    requires u == Noted(w, w.(sys := Step(w.sys, Show(props)), wc := u.wc, restoring := u.restoring))
    requires (u.wc == w.wc && u.restoring == w.restoring) || Restored(w, u, props)
    ensures Tidy(b, u, path')
  {
    hide Steady, Truthful, IsDeleted, Step, Restored;
    ShowsProps(w.sys, props);
    if OpenKey(props) != OpenKey(w.sys.pane.props) {
      if u.wc == w.wc {
        NoFlipUnderAWrite(b, w, props, path);
      } else {
        RestoredHasNoWrites(w, u, props);
      }
    }
    TruthKnowsHead(b, u);
    path' := ShowKeepsSteady(b, w, u, props, path);
  }

  lemma TruthKnowsHead(b: Backend, w: World)
    requires Truthful(b, w.sys.pane.props.status, w.wc, w.head, w.headId)
    ensures w.sys.pane.props.status.head == w.headId && TruthAbout(b, w, w.sys.pane.props.selected)
  {
  }

  lemma RestoredHasNoWrites(w: World, u: World, props: Props)
    requires Restored(w, u, props)
    ensures !Writing(w.sys)
  {
  }

  lemma CommitKeepsTidy(b: Backend, w: World, u: World, id: string, path: Path)
    requires Steady(b, w, path) && id !in w.ids
    requires w.sys.pane.props.status.head.Some? ==> w.sys.pane.props.status.head.value in w.ids
    requires u == w.(sys := Step(w.sys, Ask(StatusAfterAct)),
                     head := Staged(b, w.wc, w.head), headId := Some(id), ids := w.ids + {id})
    ensures Tidy(b, u, path)
  {
    hide Step, IsDeleted, Truthful, Mirrored, Selected, Sound, Serve, ServeHead;
    AskFacts(w.sys, StatusAfterAct);
    AskKeepsSelected(w.sys, StatusAfterAct, path);
    StepKeepsSound(w.sys, Ask(StatusAfterAct));
  }

  lemma BarAnswerKeepsTidy(b: Backend, w: World, status: Status, id: string, path: Path) returns (path': Path)
    requires Tidy(b, w, path) && CanHappen(b, w, Answering(status, id)) && w.sys.pending[0].op.Bar?
    ensures Tidy(b, Happens(b, w, Answering(status, id)), path')
  {
    hide Steady, AnsweredPane, IsDeleted, Truthful, Step;
    var call, props := w.sys.pending[0].op.call, w.sys.pane.props;
    var u := Happens(b, w, Answering(status, id));
    BarIsDropped(b, w, path);
    FrontLeaves(w.sys);
    var w1 := w.(sys := AnsweredPane(b, w));
    path' := path;
    match call
    case Commit =>
      AskFacts(w1.sys, StatusAfterAct);
      if Staged(b, w.wc, w.head) != w.head {
        CommitKeepsTidy(b, w1, u, id, path);
      }
    case Push =>
      AskFacts(w1.sys, StatusAfterAct);
      AskingKeepsTidy(b, w1, u, StatusAfterAct, path);
    case StatusRead => path' := StatusKeepsTidy(b, w1, u, NewStatus(props, status), path);
    case Fetch => path' := StatusKeepsTidy(b, w1, u, NewStatus(props, status), path);
    case StatusAfterAct => path' := StatusKeepsTidy(b, w1, u, Bumped(NewStatus(props, status)), path);
    case _ =>
      MoveIsRestored(b, w, u, status, path);
      path' := StatusKeepsTidy(b, w1, u, Bumped(NewStatus(props, status)), path);
  }

  lemma MoveIsRestored(b: Backend, w: World, u: World, status: Status, path: Path)
    requires Steady(b, w, path) && |w.sys.pending| > 0
    requires w.sys.pending[0].op == Bar(Discard) || w.sys.pending[0].op == Bar(Stash)
    requires Truthful(b, status, u.wc, w.head, w.headId) && Agrees(u.wc, w.head)
    requires AnsweredPane(b, w) == System(w.sys.pane, Without(w.sys.pending, 0))
    requires u.restoring == Some(u.sys.pane.read)
    ensures Restored(w.(sys := AnsweredPane(b, w)), u, Bumped(NewStatus(w.sys.pane.props, status)))
  {
    hide AnsweredPane, Truthful, Selected, Sound, RecordKept, BaseKnown;
    assert w.sys.pending[0] in w.sys.pending;
    assert Moving(w);
    WithoutIsPart(w.sys.pending, 0);
    DeletedIsGone(b, Bumped(NewStatus(w.sys.pane.props, status)), w.(wc := u.wc));
  }

  lemma HappeningKeepsTidy(b: Backend, w: World, h: Happening, path: Path) returns (path': Path)
    requires Trusted(b, w, path) && CanHappen(b, w, h) && Orderly(b, w, h)
    requires Happens(b, w, h).sys.pane.overtaken.None?
    ensures Tidy(b, Happens(b, w, h), path')
  {
    hide Steady, IsDeleted, Step, Truthful, AnsweredPane;
    var u, props := Happens(b, w, h), w.sys.pane.props;
    path' := path;
    match h
    case Typing(text) => path' := TypingKeepsTidy(b, w, text, path);
    case Saving => path' := SavingKeepsTidy(b, w, path);
    case Selecting(next) =>
      ShowsProps(w.sys, props.(selected := next));
      ShowKeepsAsked(w.sys, props.(selected := next));
      SelectingIsTruthful(b, w, u, next);
      path' := ShowKeepsSteady(b, w, u, props.(selected := next), path);
      assert StatusComes(b, u);
    case Clicking(call) =>
      AskFacts(w.sys, call);
      AskingKeepsTidy(b, w, u, call, path);
    case Reloading =>
      AskFacts(w.sys, StatusRead);
      AskingKeepsTidy(b, w, u, StatusRead, path);
    case Bumping =>
      ShowsProps(w.sys, Bumped(props));
      ShowKeepsAsked(w.sys, Bumped(props));
      BumpKeepsKey(props);
      path' := ShowKeepsSteady(b, w, u, Bumped(props), path);
      BumpKeepsTruth(b, w, u);
      assert StatusComes(b, u);
    case Answering(status, id) =>
      if w.sys.pending[0].op.Bar? {
        path' := BarAnswerKeepsTidy(b, w, status, id, path);
      } else {
        path' := OwnAnswerKeepsTidy(b, w, status, id, path);
      }
  }

  lemma BumpKeepsTruth(b: Backend, w: World, u: World)
    requires u.wc == w.wc && u.head == w.head && u.headId == w.headId && u.sys.pane.props == Bumped(w.sys.pane.props)
    ensures HeadTruth(b, u) <==> HeadTruth(b, w)
  {
  }

  lemma SelectingIsTruthful(b: Backend, w: World, u: World, path: Path)
    requires u.wc == w.wc && u.head == w.head && u.headId == w.headId
    requires u.sys.pane.props == w.sys.pane.props.(selected := path)
    ensures TruthAbout(b, u, path) <==> TruthAbout(b, w, path)
    ensures HeadTruth(b, u) <==> HeadTruth(b, w)
  {
  }

  lemma ShowKeepsAsked(s: System, props: Props)
    ensures forall c :: Asked(s, c) <==> Asked(Step(s, Show(props)), c)
  {
    hide Rendered, IsDeleted, OpenEffect;
    RenderFacts(s.pane, s.pane.(props := props), s.pending);
  }

  lemma OpeningIsTidy(b: Backend, w: World)
    requires Opening(b, w)
    ensures Tidy(b, w, w.sys.pane.props.selected)
  {
    hide Serve, ServeHead, Truthful;
    var props := w.sys.pane.props;
    StartIsSound(props);
    StartIsSelected(props);
    StartFacts(props);
    OpeningStatus(b, w);
  }

  lemma OpeningStatus(b: Backend, w: World)
    requires Opening(b, w)
    ensures HeadTruth(b, w) && TruthAbout(b, w, w.sys.pane.props.selected) && w.sys.pane.props.status.head == w.headId
  {
  }

  lemma StartFacts(props: Props)
    ensures var s := Start(props);
            && !Writing(s) && s.pane.overtaken.None? && s.pane.props == props
            && (forall c :: !Asked(s, c))
            && (forall r :: r in s.pending ==> HeadReadCurrent(s.pane, r.op) && !r.op.Write?)
            && (s.pane.file.Some? ==>
                  s.pane.file.value.deleted && s.pane.read > 0 && IsDeleted(props) && BaseComing(s) &&
                  s.pane.draft == s.pane.file.value.text)
  {
    var s := Start(props);
    if props.selected == "" {
      assert s.pending == [];
    } else if IsDeleted(props) {
      DeletedHasACommittedPath(props);
      var r := Pending(props.workbench, CommittedRead(CommittedPath(props).value, 1, 1));
      assert s.pending == [r] && s.pending[0] == r && r in s.pending;
    } else {
      assert s.pending == [Pending(props.workbench, OpenRead(props.selected, 1))];
    }
  }
}
