/** What the marks in the editor mean once nothing is outstanding, and for which files they do. */
module EditorDiff {
  import opened Checkout
  import opened CodePane
  import opened EditorBase
  import opened EditorBaseSteps
  import opened EditorMirror
  import opened EditorSafety
  import opened EditorSelection
  import opened EditorTold
  import opened Fifo
  import opened Wrappers

  /** Nothing is outstanding: no call, and no reload on its way to one. */
  predicate Quiet(w: World) { w.sys.pending == [] && w.reloads == 0 }

  /** The pane says that it does not compare. */
  predicate IsNoted(p: Pane) {
    p.committed.Some? && p.committed.value.read == p.read && p.committed.value.side.NotCompared?
  }

  /** HEAD holds the file, but not as a text the editor could show whole. */
  predicate CannotBeCompared(b: Backend, head: Tree, path: Path) {
    path in head &&
    var blob := head[path];
    |blob.text| > b.limit || !blob.decodes || '\0' in blob.text || '\U{FFFD}' in blob.text
  }

  /** The side is what HEAD holds of this path, nothing if it lacks it, or exactly noted as not comparable. */
  predicate ComparesWith(b: Backend, p: Pane, head: Tree, path: Path)
    requires p.file.Some?
  {
    (IsNoted(p) <==> CannotBeCompared(b, head, path)) &&
    (!IsNoted(p) ==> Original(p) == if path in head then head[path].text else "")
  }

  /**
   What the original side is to be, from what git says of the selected file: for a change HEAD's file
   under its old name if it was renamed, nothing for a file that HEAD does not have, and otherwise
   what the editor would be served of HEAD's file.
   */
  predicate ComparesWithHead(b: Backend, w: World)
    requires w.sys.pane.file.Some?
  {
    var p := w.sys.pane;
    match Find(p.props.status.changes, p.props.selected)
    case None => !IsNoted(p) && Original(p) == HeadText(b, w.head, p.props.selected)
    case Some(change) =>
      if change.kind == Added || change.kind == Untracked then !IsNoted(p) && Original(p) == ""
      else
        match change.renamedFrom
        case Some(from) => ComparesWith(b, p, w.head, from)
        case None => ComparesWith(b, p, w.head, p.props.selected)
  }

  /** Git knows nothing of the selected file: it is ignored, HEAD lacks it, and no status lists it. */
  predicate Overlooked(b: Backend, w: World) {
    var props := w.sys.pane.props;
    props.selected !in w.head && b.ignores(w.wc, props.selected) && Find(props.status.changes, props.selected).None?
  }

  /** What becomes of HEAD's answer: its text, nothing, or a note exactly where there is no text to compare with. */
  lemma SideIsHeads(b: Backend, head: Tree, path: Path)
    ensures match SideOf(ServeHead(b, head, path))
            case Held(text) => !CannotBeCompared(b, head, path) && text == if path in head then head[path].text else ""
            case NotCompared(_) => CannotBeCompared(b, head, path)
  {
  }

  /** A read of HEAD that fails is noted with what went wrong. */
  lemma ARefusedSideIsNoted(p: Pane, read: nat, run: nat, status: nat, message: string)
    requires run == p.baseRun
    ensures CommittedAnswered(p, read, run, Refused(status, message)).committed ==
      Some(Committed(read, NotCompared(message)))
  {
  }

  /** HEAD's answer that counts, on screen: a note for what is not its whole text, and otherwise what it holds. */
  lemma AnAnswerOfHeadIsComparedWith(s: System, k: nat, reply: Reply)
    requires MayAnswer(s.pending, k) && s.pending[k].op.CommittedRead? && !Stale(s.pane, s.pending[k].op)
    requires reply.AtHead? && s.pending[k].op.read == s.pane.read && s.pane.file.Some?
    ensures Enabled(s, Answer(k, reply))
    ensures var p, q := s.pane, Step(s, Answer(k, reply)).pane;
            && q.file == p.file && q.draft == p.draft && q.read == p.read
            && (IsNoted(q) <==> reply.binary || reply.truncated)
            && Original(q) == if IsNoted(q) then p.file.value.text else if reply.exists_ then reply.text else ""
  {
    hide Mount, IsDeleted, CommittedPath, IsNew;
    OnlyMounts(s.pane, CommittedAnswered(s.pane, s.pending[k].op.read, s.pending[k].op.run, reply));
  }

  /**
   A file just read carries no marks until HEAD's answer, whatever the base of the file before it;
   one that HEAD does not have is compared with nothing at once.
   */
  lemma ANewReadHasNoMarks(s: System, k: nat, loaded: Loaded)
    requires MayAnswer(s.pending, k) && s.pending[k].op.OpenRead? && !Stale(s.pane, s.pending[k].op)
    requires s.pending[k].op.path == loaded.path && s.pane.props.selected != ""
    requires s.pane.committed.Some? ==> s.pane.committed.value.read <= s.pane.read
    ensures Enabled(s, Answer(k, Content(loaded)))
    ensures var p, q := s.pane, Step(s, Answer(k, Content(loaded))).pane;
            var change := Find(p.props.status.changes, p.props.selected);
            && q.file.Some? && q.file.value.text == q.draft == loaded.text && !IsNoted(q)
            && Original(q) == match change
               case Some(c) => if c.kind == Added || c.kind == Untracked then "" else loaded.text
               case None => loaded.text
  {
    hide Mount;
    var p := s.pane;
    var x := OpenAnswered(p, s.pending[k].workbench, s.pending[k].op.run, Content(loaded));
    MountOnlyMounts(AgainStage(x, Flushed(p, x)).pane);
  }

  lemma MountOnlyMounts(p: Pane)
    ensures Mount(p) == p.(editor := Mount(p).editor)
  {
  }

  /**
   In any run of opening, typing, saving, committing, pushing, fetching, discarding and stashing on
   one checkout, with no save overlapping a selection, a discard or a stash, no edit overtaken, and
   selections under a status that is true of the file or with a call of the bar in the queue: whenever
   nothing is outstanding and a file is open, it is the selected one with the working copy's text, and
   its base belongs to it. The diff is against HEAD unless git overlooks the file; then it is against
   the text the base was taken with, which is right only if that was empty.
   */
  lemma TheDiffIsAgainstHead(b: Backend, w: World, run: seq<Happening>)
    requires Opening(b, w) && CanRun(b, w, run) && OrderlyRun(b, w, run)
    ensures var v := Afterwards(b, w, run);
            Quiet(v) && v.sys.pane.file.Some? ==>
              && Right(v.sys.pane) && Mirrored(b, v.wc, v.sys.pane)
              && v.sys.pane.committed.Some? && v.sys.pane.committed.value.read == v.sys.pane.read
              && (ComparesWithHead(b, v) <==> !Overlooked(b, v) || v.taken == "")
              && (Overlooked(b, v) ==> Original(v.sys.pane) == v.taken)
  {
    OpeningIsTrusted(b, w);
    var path := RunKeepsTrusted(b, w, run, w.sys.pane.props.selected);
    var v := Afterwards(b, w, run);
    if Quiet(v) && v.sys.pane.file.Some? {
      QuietIsCompared(b, v, path);
    }
  }

  lemma QuietIsCompared(b: Backend, v: World, path: Path)
    requires Trusted(b, v, path) && Quiet(v) && v.sys.pane.file.Some?
    ensures Right(v.sys.pane) && Mirrored(b, v.wc, v.sys.pane)
    ensures v.sys.pane.committed.Some? && v.sys.pane.committed.value.read == v.sys.pane.read
    ensures ComparesWithHead(b, v) <==> !Overlooked(b, v) || v.taken == ""
    ensures Overlooked(b, v) ==> Original(v.sys.pane) == v.taken
  {
    hide Serve, ServeHead;
    var p := v.sys.pane;
    assert !Loading(v.sys) && !Restoring(v);
    assert BaseKnown(b, v);
    assert Truthful(b, p.props.status, v.wc, v.head, v.headId);
    if CommittedPath(p.props).Some? {
      SideIsHeads(b, v.head, CommittedPath(p.props).value);
    }
    assert TruthfulAbout(b, Find(p.props.status.changes, p.props.selected), p.props.selected, v.wc, v.head);
  }

  // --- when no edit is overtaken ---

  /** Nothing is typed, and no edit is open, while a discard or a stash is under way. */
  ghost predicate Gentle(b: Backend, w: World, h: Happening) {
    Orderly(b, w, h) &&
    (h.Typing? ==> !Moving(w)) &&
    (h.Clicking? && (h.call.Discard? || h.call.Stash?) ==> Clean(w.sys.pane))
  }

  ghost predicate GentleRun(b: Backend, w: World, run: seq<Happening>)
    requires CanRun(b, w, run)
    decreases |run|
  {
    run == [] || (Gentle(b, w, run[0]) && GentleRun(b, Happens(b, w, run[0]), run[1..]))
  }

  ghost predicate CleanWhileMoving(w: World) { Moving(w) ==> Clean(w.sys.pane) }

  /** Only a re-read that finds another text under unsaved edits says so. */
  lemma AnswerOvertakes(b: Backend, w: World)
    requires |w.sys.pending| > 0 && w.sys.pane.overtaken.None? && AnsweredPane(b, w).pane.overtaken.Some?
    ensures var r, p := w.sys.pending[0].op, w.sys.pane;
            && r.ReRead? && r.run == p.rereadRun && r.read == p.read && p.file.Some? && !Clean(p)
            && !(r.path in w.wc && Serve(b, r.path, w.wc[r.path]).text == p.file.value.text)
  {
    hide Rendered, Serve, IsDeleted;
    TheAnswerFits(b, w);
    var p, r, reply := w.sys.pane, w.sys.pending[0], ReplyOf(b, w, w.sys.pending[0].op);
    match r.op
    case OpenRead(_, run) => RenderedFrame(p, OpenAnswered(p, r.workbench, run, reply));
    case ReRead(_, read, run) => RenderedFrame(p, RereadAnswered(p, r.workbench, read, run, reply));
    case CommittedRead(_, read, run) => RenderedFrame(p, CommittedAnswered(p, read, run, reply));
    case Write(file, draft) => RenderedFrame(p, WriteAnswered(p, file, draft, reply));
    case Bar(_) =>
  }

  lemma CleanAnswerOvertakesNothing(b: Backend, w: World, path: Path)
    requires Trusted(b, w, path) && CleanWhileMoving(w) && |w.sys.pending| > 0
    ensures AnsweredPane(b, w).pane.overtaken.None?
  {
    hide Serve, IsDeleted, AnsweredPane;
    var r := w.sys.pending[0];
    assert r in w.sys.pending;
    assert Mirrored(b, w.wc, w.sys.pane) || Clean(w.sys.pane);
    if AnsweredPane(b, w).pane.overtaken.Some? {
      AnswerOvertakes(b, w);
    }
  }

  lemma ShowOvertakesNothing(s: System, props: Props)
    ensures Step(s, Show(props)).pane.overtaken == s.pane.overtaken
    ensures Clean(s.pane) ==> Clean(Step(s, Show(props)).pane)
  {
    hide Rendered;
    RenderedFrame(s.pane, s.pane.(props := props));
  }

  lemma GentleOvertakesNothing(b: Backend, w: World, h: Happening, path: Path)
    requires Trusted(b, w, path) && CleanWhileMoving(w) && CanHappen(b, w, h) && Gentle(b, w, h)
    ensures Happens(b, w, h).sys.pane.overtaken.None?
  {
    hide Step, IsDeleted, Serve, AnsweredPane, Truthful, Selected, Sound, Turns, BaseKnown, StatusComes;
    var props := w.sys.pane.props;
    match h
    case Typing(text) => TypeFacts(w.sys, text);
    case Saving =>
      SaveOvertakesNothing(w.sys);
    case Selecting(next) => ShowOvertakesNothing(w.sys, props.(selected := next));
    case Clicking(call) => AskFacts(w.sys, call);
    case Reloading => AskFacts(w.sys, StatusRead);
    case Bumping => ShowOvertakesNothing(w.sys, Bumped(props));
    case Answering(status, id) =>
      CleanAnswerOvertakesNothing(b, w, path);
      var s1 := AnsweredPane(b, w);
      AskFacts(s1, StatusAfterAct);
      ShowOvertakesNothing(s1, NewStatus(props, status));
      ShowOvertakesNothing(s1, Bumped(NewStatus(props, status)));
  }

  lemma SaveOvertakesNothing(s: System)
    requires CanSave(s.pane)
    ensures Step(s, Save).pane.overtaken == s.pane.overtaken
  {
    hide Rendered;
    RenderedFrame(s.pane, s.pane.(saving := true, error := None));
  }

  lemma ShowKeepsCleanWhileMoving(b: Backend, w: World, u: World, props: Props)
    requires Turns(b, w) && CleanWhileMoving(w)
    requires u.sys == Step(w.sys, Show(props)) && u.restoring == w.restoring
    ensures CleanWhileMoving(u)
  {
    hide Step, TruthAbout, IsDeleted;
    ShowKeepsAsked(w.sys, props);
    ShowOvertakesNothing(w.sys, props);
    ShowKeepsTheFile(w.sys, props);
  }

  lemma ShowKeepsTheFile(s: System, props: Props)
    ensures var q := Step(s, Show(props)).pane;
            q.read >= s.pane.read && (q.read == s.pane.read && q.file.Some? ==> q.file == s.pane.file)
  {
    hide Rendered;
    RenderedFrame(s.pane, s.pane.(props := props));
  }

  /** An answer other than a save's brings in a clean file, or leaves the one that is there. */
  lemma AnswerKeepsClean(b: Backend, w: World)
    requires |w.sys.pending| > 0 && !w.sys.pending[0].op.Write?
    ensures var p, q := w.sys.pane, AnsweredPane(b, w).pane;
            && (Clean(p) ==> Clean(q)) && q.read >= p.read
            && (q.read == p.read && q.file.Some? ==> q.file == p.file)
    ensures forall c :: Asked(AnsweredPane(b, w), c) ==> Asked(w.sys, c)
  {
    hide Rendered, Serve, IsDeleted, ServeHead;
    TheAnswerFits(b, w);
    var p, r, reply := w.sys.pane, w.sys.pending[0], ReplyOf(b, w, w.sys.pending[0].op);
    AnswerIssuesReads(p, r.workbench, r.op, reply);
    QueuedAfter(Answered(p, r.workbench, r.op, reply), Without(w.sys.pending, 0));
    WithoutIsPart(w.sys.pending, 0);
    match r.op
    case OpenRead(_, run) => RenderedFrame(p, OpenAnswered(p, r.workbench, run, reply));
    case ReRead(_, read, run) => RenderedFrame(p, RereadAnswered(p, r.workbench, read, run, reply));
    case CommittedRead(_, read, run) => RenderedFrame(p, CommittedAnswered(p, read, run, reply));
    case Bar(_) =>
  }

  lemma WriteKeepsCleanWhileMoving(b: Backend, w: World, u: World, path: Path)
    requires Steady(b, w, path) && |w.sys.pending| > 0 && w.sys.pending[0].op.Write?
    requires u.sys == AnsweredPane(b, w) && u.restoring == w.restoring
    ensures CleanWhileMoving(u)
  {
    hide AnsweredPane, IsDeleted, Serve, TruthAbout, Selected, BaseKnown, Sound;
    var r := w.sys.pending[0];
    assert r in w.sys.pending;
    assert Writing(w.sys);
    WriteFacts(b, w);
    WithoutIsPart(w.sys.pending, 0);
    SubjectOfTheWrite(w.sys, r, path);
    assert forall c :: Asked(u.sys, c) ==> Asked(w.sys, c);
  }

  lemma AnsweringKeepsCleanWhileMoving(b: Backend, w: World, status: Status, id: string, path: Path)
    requires Steady(b, w, path) && CleanWhileMoving(w) && CanHappen(b, w, Answering(status, id))
    ensures CleanWhileMoving(Happens(b, w, Answering(status, id)))
  {
    hide AnsweredPane, IsDeleted, Serve, Truthful, Selected, BaseKnown, Sound, RecordKept, Step, TruthAbout, Steady;
    var op, props, u := w.sys.pending[0].op, w.sys.pane.props, Happens(b, w, Answering(status, id));
    if op.Write? {
      WriteKeepsCleanWhileMoving(b, w, u, path);
    } else {
      AnswerKeepsClean(b, w);
      assert Turns(b, w) by { SteadyTurns(b, w, path); }
      if op.Bar? {
        BarIsDropped(b, w, path);
        var w1 := w.(sys := AnsweredPane(b, w));
        SteadyTurns(b, w1, path);
        AskFacts(w1.sys, StatusAfterAct);
        if op.call.StatusRead? || op.call.Fetch? {
          ShowKeepsCleanWhileMoving(b, w1, u, NewStatus(props, status));
        } else if op.call.StatusAfterAct? {
          ShowKeepsCleanWhileMoving(b, w1, u, Bumped(NewStatus(props, status)));
        } else if op.call.Discard? || op.call.Stash? {
          assert w.sys.pending[0] in w.sys.pending;
          ShowOvertakesNothing(w1.sys, Bumped(NewStatus(props, status)));
        }
      }
    }
  }

  lemma SteadyTurns(b: Backend, w: World, path: Path)
    requires Steady(b, w, path)
    ensures Turns(b, w)
  {
  }

  lemma GentleStaysClean(b: Backend, w: World, h: Happening, path: Path)
    requires Trusted(b, w, path) && CleanWhileMoving(w) && CanHappen(b, w, h) && Gentle(b, w, h)
    ensures CleanWhileMoving(Happens(b, w, h))
  {
    hide AnsweredPane, IsDeleted, Serve, Truthful, Selected, BaseKnown, RecordKept, Step, TruthAbout, StatusComes;
    var u, props := Happens(b, w, h), w.sys.pane.props;
    match h
    case Typing(text) =>
      TypeFacts(w.sys, text);
      SameQueue(w.sys, u.sys);
    case Saving => SavingKeepsCleanWhileMoving(b, w, u);
    case Selecting(next) => ShowKeepsCleanWhileMoving(b, w, u, props.(selected := next));
    case Clicking(call) => AskFacts(w.sys, call);
    case Reloading => AskFacts(w.sys, StatusRead);
    case Bumping => ShowKeepsCleanWhileMoving(b, w, u, Bumped(props));
    case Answering(status, id) => AnsweringKeepsCleanWhileMoving(b, w, status, id, path);
  }

  lemma SavingKeepsCleanWhileMoving(b: Backend, w: World, u: World)
    requires Sound(w.sys) && CanSave(w.sys.pane) && !Moving(w)
    requires u.sys == Step(w.sys, Save) && u.restoring == w.restoring
    ensures CleanWhileMoving(u)
  {
    hide Step, IsDeleted;
    if w.sys.pane.file.Some? && !Locked(w.sys.pane.file.value) {
      SaveFactsInFull(w.sys);
      AppendedWrite(w.sys, u.sys, Pending(w.sys.pane.props.workbench, Write(w.sys.pane.file.value, w.sys.pane.draft)));
    } else {
      NoSave(w.sys);
    }
  }

  lemma {:induction false} GentleRunsStayGentle(b: Backend, w: World, run: seq<Happening>, path: Path)
    requires Trusted(b, w, path) && CleanWhileMoving(w) && CanRun(b, w, run) && GentleRun(b, w, run)
    ensures OrderlyRun(b, w, run)
    decreases |run|
  {
    hide Trusted, CleanWhileMoving, Happens, CanHappen;
    if run != [] {
      GentleOvertakesNothing(b, w, run[0], path);
      GentleStaysClean(b, w, run[0], path);
      var path' := HappeningKeepsTrusted(b, w, run[0], path);
      GentleRunsStayGentle(b, Happens(b, w, run[0]), run[1..], path');
    }
  }

  /** With no edit open under a discard or a stash, none is ever overtaken: such runs are orderly. */
  lemma NoEditIsOvertaken(b: Backend, w: World, run: seq<Happening>)
    requires Opening(b, w) && CanRun(b, w, run) && GentleRun(b, w, run)
    ensures OrderlyRun(b, w, run) && Afterwards(b, w, run).sys.pane.overtaken.None?
  {
    OpeningIsTrusted(b, w);
    OpeningIsClean(b, w);
    GentleRunsStayGentle(b, w, run, w.sys.pane.props.selected);
    var path := RunKeepsTrusted(b, w, run, w.sys.pane.props.selected);
  }

  lemma OpeningIsClean(b: Backend, w: World)
    requires Opening(b, w)
    ensures CleanWhileMoving(w)
  {
    StartFacts(w.sys.pane.props);
  }
}
