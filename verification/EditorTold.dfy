/**
 Why the silence of a status can be believed: what it says of a file being opened is true, or the
 queue brings a true one before any save of the file is answered.
 */
module EditorTold {
  import opened Checkout
  import opened CodePane
  import opened EditorBase
  import opened EditorBaseSteps
  import opened EditorMirror
  import opened EditorSafety
  import opened EditorSelection
  import opened Fifo
  import opened Wrappers

  // --- the queue moves on ---

  /** Without its front, or with all of it, and with more behind it that opens nothing. */
  ghost predicate MovesOn(s: System, t: System, gone: nat) {
    && gone <= 1 && gone <= |s.pending| && s.pending[gone..] <= t.pending
    && t.pane.openRun == s.pane.openRun
    && (forall i :: |s.pending| - gone <= i < |t.pending| ==> !t.pending[i].op.OpenRead?)
    && (gone == 1 ==> !Live(s.pane, s.pending[0].op) && !BringsStatus(s.pending[0].op))
    && (gone == 1 && s.pending[0].op == Bar(Push) ==> StatusQueued(t))
  }

  lemma LoadingMovesOn(s: System, t: System, gone: nat)
    requires MovesOn(s, t, gone)
    ensures Loading(t) <==> Loading(s)
    ensures StatusQueued(s) ==> StatusQueued(t)
    ensures StatusFirst(s) ==> StatusFirst(t)
  {
    if r :| r in s.pending && (Live(s.pane, r.op) || BringsStatus(r.op)) {
      var i :| 0 <= i < |s.pending| && s.pending[i] == r;
      assert gone <= i ==> t.pending[i - gone] == r;
    }
    forall r | r in s.pending && (Live(s.pane, r.op) || BringsStatus(r.op)) ensures r in t.pending {
      var i :| 0 <= i < |s.pending| && s.pending[i] == r;
      assert t.pending[i - gone] == s.pending[gone..][i - gone];
    }
    forall r | r in t.pending && Live(t.pane, r.op) ensures r in s.pending {
      var i :| 0 <= i < |t.pending| && t.pending[i] == r;
      assert t.pending[i] == s.pending[gone..][i];
    }
    if k :| IsStatusFirst(s, k) {
      assert forall j :: 0 <= j < |s.pending| - gone ==> t.pending[j] == s.pending[gone..][j];
      assert IsStatusFirst(t, k - gone);
    }
  }

  lemma AheadMovesOn(s: System, t: System, gone: nat, k: int)
    requires MovesOn(s, t, gone) && AheadOfOpens(s, k) && k >= gone
    ensures AheadOfOpens(t, k - gone) && t.pending[k - gone] == s.pending[k]
  {
    assert forall j :: 0 <= j < |s.pending| - gone ==> t.pending[j] == s.pending[gone..][j] == s.pending[j + gone];
  }

  /** The checkout and what is known of it, unchanged. */
  predicate SameCheckout(w: World, u: World) {
    u.wc == w.wc && u.head == w.head && u.headId == w.headId &&
    u.sys.pane.props.selected == w.sys.pane.props.selected && u.sys.pane.props.status == w.sys.pane.props.status
  }

  lemma LoadingStaysTold(b: Backend, w: World, u: World, gone: nat)
    requires LoadingIsTold(b, w) && SameCheckout(w, u) && MovesOn(w.sys, u.sys, gone)
    requires gone == 1 && w.sys.pending[0].op == Bar(Commit) ==> Staged(b, w.wc, w.head) == w.head
    ensures LoadingIsTold(b, u)
  {
    hide MovesOn, TruthfulAbout, Staged, Find;
    LoadingMovesOn(w.sys, u.sys, gone);
    assert TruthAbout(b, w, w.sys.pane.props.selected) <==> TruthAbout(b, u, u.sys.pane.props.selected);
    if k :| AheadOfOpens(w.sys, k) && WillTell(b, w, w.sys.pending[k].op) {
      PushIsBehind(w.sys, u.sys, gone);
      if k >= gone {
        AheadMovesOn(w.sys, u.sys, gone, k);
      }
    }
  }

  lemma PushIsBehind(s: System, t: System, gone: nat)
    requires MovesOn(s, t, gone)
    ensures gone <= 1
    ensures gone == 1 && |s.pending| > 0 && s.pending[0].op == Bar(Push) ==> StatusQueued(t)
  {
  }

  lemma BaseStaysHeads(b: Backend, w: World, u: World, gone: nat)
    requires BaseIsHeads(b, w) && SameCheckout(w, u) && MovesOn(w.sys, u.sys, gone)
    requires u.taken == w.taken && (Restoring(w) ==> Restoring(u))
    requires u.sys.pane.file.Some? ==>
      w.sys.pane.file.Some? && w.sys.pane.file.value.path == u.sys.pane.file.value.path
    ensures BaseIsHeads(b, u)
  {
    hide MovesOn, Serve;
    LoadingMovesOn(w.sys, u.sys, gone);
  }

  lemma ListedStaysTrue(b: Backend, w: World, u: World)
    requires ListedTruth(b, w) && SameCheckout(w, u)
    ensures ListedTruth(b, u)
  {
  }

  lemma StaysTold(b: Backend, w: World, u: World, gone: nat)
    requires Told(b, w) && SameCheckout(w, u) && MovesOn(w.sys, u.sys, gone)
    requires gone == 1 && w.sys.pending[0].op == Bar(Commit) ==> Staged(b, w.wc, w.head) == w.head
    requires u.taken == w.taken && (Restoring(w) ==> Restoring(u))
    requires u.sys.pane.file.Some? ==>
      w.sys.pane.file.Some? && w.sys.pane.file.value.path == u.sys.pane.file.value.path
    ensures Told(b, u)
  {
    hide MovesOn, LoadingIsTold, BaseIsHeads, ListedTruth;
    LoadingStaysTold(b, w, u, gone);
    BaseStaysHeads(b, w, u, gone);
    ListedStaysTrue(b, w, u);
  }

  // --- a true status, and another HEAD ---

  /** An open file the status does not list is HEAD's file, text and all. */
  lemma TruthAboutTheOpenFile(b: Backend, w: World)
    requires TruthAbout(b, w, w.sys.pane.props.selected) && w.sys.pane.props.status.head == w.headId
    requires w.sys.pane.file.Some? && Right(w.sys.pane) && w.sys.pane.file.value.path != ""
    requires Mirrored(b, w.wc, w.sys.pane)
    ensures CommittedPath(w.sys.pane.props).None? && !IsNew(w.sys.pane.props) ==>
              BaseText(b, w.head, w.sys.pane.file.value.path, w.sys.pane.file.value.text)
  {
    hide Serve;
    assert w.sys.pane.file.value.path == w.sys.pane.props.selected;
  }

  lemma ATrueStatusTells(b: Backend, u: World, path: Path)
    requires Steady(b, u, path) && Truthful(b, u.sys.pane.props.status, u.wc, u.head, u.headId)
    ensures Told(b, u)
  {
    hide Serve, ServeHead, IsDeleted, Sound, TruthfulAbout;
    TruthKnowsHead(b, u);
    if !Loading(u.sys) && u.sys.pane.file.Some? && !Restoring(u) {
      TruthAboutTheOpenFile(b, u);
    }
  }

  lemma AnotherHeadTells(b: Backend, u: World)
    requires u.sys.pane.props.status.head != u.headId
    ensures Told(b, u)
  {
  }

  // --- steps that answer nothing ---

  /** A render under the same key asks for reads behind the queue, and opens nothing. */
  lemma ShownMovesOn(s: System, props: Props)
    requires OpenKey(props) == OpenKey(s.pane.props)
    ensures MovesOn(s, Step(s, Show(props)), 0)
    ensures var q := Step(s, Show(props)).pane; q.file == s.pane.file && q.read == s.pane.read && q.props == props
  {
    hide Rendered, IsDeleted;
    var x := s.pane.(props := props);
    RenderedFrame(s.pane, x);
    RenderedIssues(s.pane, x);
    QueuedAfter(Rendered(s.pane, x), s.pending);
    assert s.pending[0..] == s.pending;
  }

  lemma AskedMovesOn(s: System, call: BarCall)
    ensures MovesOn(s, Step(s, Ask(call)), 0) && Step(s, Ask(call)).pane == s.pane
  {
    assert s.pending[0..] == s.pending;
    assert Step(s, Ask(call)).pending == s.pending + [Pending(s.pane.props.workbench, Bar(call))];
  }

  lemma TypedStaysTold(b: Backend, w: World, text: Text)
    requires Told(b, w) && CanType(w.sys.pane)
    ensures Told(b, Noted(w, w.(sys := Step(w.sys, Type(text)))))
  {
    hide Step, Told, IsDeleted, CommittedPath, IsNew;
    TypeFacts(w.sys, text);
    assert w.sys.pending[0..] == w.sys.pending;
    StaysTold(b, w, Noted(w, w.(sys := Step(w.sys, Type(text)))), 0);
  }

  lemma SavedStaysTold(b: Backend, w: World)
    requires Told(b, w) && Sound(w.sys) && CanSave(w.sys.pane)
    ensures Told(b, Noted(w, w.(sys := Step(w.sys, Save))))
  {
    hide Step, Told, IsDeleted, CommittedPath, IsNew;
    if w.sys.pane.file.Some? && !Locked(w.sys.pane.file.value) {
      SaveFactsInFull(w.sys);
    } else {
      NoSave(w.sys);
    }
    assert w.sys.pending[0..] == w.sys.pending;
    StaysTold(b, w, Noted(w, w.(sys := Step(w.sys, Save))), 0);
  }

  lemma AskedStaysTold(b: Backend, w: World, u: World, call: BarCall)
    requires Told(b, w) && u == w.(sys := Step(w.sys, Ask(call)), reloads := u.reloads)
    ensures Told(b, u)
  {
    hide Step, Told;
    AskedMovesOn(w.sys, call);
    StaysTold(b, w, u, 0);
  }

  /** The same selection under the same status, or the same selection again. */
  lemma ShownStaysTold(b: Backend, w: World, props: Props)
    requires Told(b, w) && OpenKey(props) == OpenKey(w.sys.pane.props) && props.status == w.sys.pane.props.status
    ensures Told(b, Noted(w, w.(sys := Step(w.sys, Show(props)))))
  {
    hide Step, Told, IsDeleted, CommittedPath, IsNew;
    ShownMovesOn(w.sys, props);
    SameStatusSameBase(w.sys.pane, props);
    StaysTold(b, w, Noted(w, w.(sys := Step(w.sys, Show(props)))), 0);
  }

  /** What the status is wrongly silent about, a commit would take in. */
  lemma UntrueIsStaged(b: Backend, w: World, path: Path)
    requires ListedTruth(b, w) && !TruthAbout(b, w, path)
    ensures Staged(b, w.wc, w.head) != w.head
    ensures Find(w.sys.pane.props.status.changes, path).None?
  {
    var status := w.sys.pane.props.status;
    assert Find(status.changes, path).Some? ==> TruthfulAbout(b, Find(status.changes, path), path, w.wc, w.head);
    assert path in Staged(b, w.wc, w.head) && Staged(b, w.wc, w.head)[path] == w.wc[path];
  }

  /** A call that stands in the queue when a file is selected stands before its open. */
  lemma ABarCallTells(b: Backend, w: World, u: World, props: Props)
    requires ListedTruth(b, w) && RunsKnown(w.sys) && OpenKey(props) != OpenKey(w.sys.pane.props)
    requires BarQueued(w.sys) && !TruthAbout(b, w, props.selected)
    requires u.sys == Step(w.sys, Show(props)) && u.wc == w.wc && u.head == w.head
    ensures LoadingIsTold(b, u)
  {
    hide Step, IsDeleted, TruthAbout, ListedTruth, OpenEffect, Staged;
    MoveFacts(w.sys, props);
    UntrueIsStaged(b, w, props.selected);
    var r :| r in w.sys.pending && r.op.Bar?;
    var k :| 0 <= k < |w.sys.pending| && w.sys.pending[k] == r;
    assert u.sys.pending[k] == r && r in u.sys.pending;
    if !BringsStatus(r.op) {
      assert forall m :: 0 <= m < |w.sys.pending| ==>
        u.sys.pending[m] == w.sys.pending[m] && w.sys.pending[m] in w.sys.pending;
      assert AheadOfOpens(u.sys, k) && WillTell(b, u, u.sys.pending[k].op);
    }
  }

  lemma MovedStaysTold(b: Backend, w: World, path: Path)
    requires Told(b, w) && RunsKnown(w.sys)
    requires TruthAbout(b, w, path) || BarQueued(w.sys)
    requires var props := w.sys.pane.props.(selected := path); OpenKey(props) != OpenKey(w.sys.pane.props)
    ensures Told(b, Noted(w, w.(sys := Step(w.sys, Show(w.sys.pane.props.(selected := path))))))
  {
    hide Step, IsDeleted, OpenEffect, Serve;
    var props := w.sys.pane.props.(selected := path);
    var u := Noted(w, w.(sys := Step(w.sys, Show(props))));
    MoveFacts(w.sys, props);
    SelectingIsTruthful(b, w, u, path);
    if !TruthAbout(b, w, path) {
      ABarCallTells(b, w, u, props);
    }
    MovedIsDeletedOrNone(w.sys, props);
    ListedMoves(b, w, u);
  }

  /** What a selection shows before anything is read. */
  lemma MovedIsDeletedOrNone(s: System, props: Props)
    requires RunsKnown(s) && OpenKey(props) != OpenKey(s.pane.props)
    ensures var t := Step(s, Show(props)); !Loading(t) && t.pane.file.Some? ==> CommittedPath(t.pane.props).Some?
  {
    hide Step, OpenEffect, IsDeleted;
    MoveFacts(s, props);
    if IsDeleted(props) {
      DeletedHasACommittedPath(props);
    }
    NothingSelected(s.pane.(props := props));
  }

  lemma NothingSelected(x: Pane)
    ensures x.props.selected == "" ==> OpenEffect(x).pane.file.None?
  {
  }

  lemma ListedMoves(b: Backend, w: World, u: World)
    requires ListedTruth(b, w) && u.wc == w.wc && u.head == w.head && u.headId == w.headId
    requires u.sys.pane.props.status == w.sys.pane.props.status
    ensures ListedTruth(b, u)
  {
  }

  // --- answers ---

  /** An answer that only leaves the queue, and the pane's own record alone. */
  lemma DroppedStaysTold(b: Backend, w: World, u: World)
    requires Told(b, w) && |w.sys.pending| > 0 && SameCheckout(w, u)
    requires u.sys.pending == Without(w.sys.pending, 0) && u.taken == w.taken && (Restoring(w) ==> Restoring(u))
    requires u.sys.pane.openRun == w.sys.pane.openRun
    requires u.sys.pane.file.Some? ==>
      w.sys.pane.file.Some? && w.sys.pane.file.value.path == u.sys.pane.file.value.path
    requires var r := w.sys.pending[0].op;
             !Live(w.sys.pane, r) && !BringsStatus(r) && r != Bar(Push) &&
             (r == Bar(Commit) ==> Staged(b, w.wc, w.head) == w.head)
    ensures Told(b, u)
  {
    hide Told;
    assert w.sys.pending[1..] == Without(w.sys.pending, 0);
    StaysTold(b, w, u, 1);
  }

  /** A push is answered, and its status read is asked for. */
  lemma PushedStaysTold(b: Backend, w: World, u: World)
    requires Told(b, w) && |w.sys.pending| > 0 && w.sys.pending[0].op == Bar(Push)
    requires u == w.(sys := Step(System(w.sys.pane, Without(w.sys.pending, 0)), Ask(StatusAfterAct)))
    ensures Told(b, u)
  {
    hide Told;
    var asked := Pending(w.sys.pane.props.workbench, Bar(StatusAfterAct));
    assert u.sys.pending == w.sys.pending[1..] + [asked];
    assert u.sys.pending[|u.sys.pending| - 1] == asked;
    assert asked in u.sys.pending;
    StaysTold(b, w, u, 1);
  }

  /** The file the selection waited for: no save of it is in front of the status. */
  lemma OpenedStaysTold(b: Backend, w: World, u: World, path: Path, path': Path)
    requires Trusted(b, w, path) && |w.sys.pending| > 0 && Live(w.sys.pane, w.sys.pending[0].op)
    requires u == Noted(w, w.(sys := AnsweredPane(b, w))) && Steady(b, u, path')
    ensures Told(b, u)
  {
    hide Rendered, IsDeleted, Serve, ServeHead, Sound, TruthfulAbout, Find, Staged;
    var p, r := w.sys.pane, w.sys.pending[0];
    assert r in w.sys.pending;
    TheAnswerFits(b, w);
    var reply := ReplyOf(b, w, r.op);
    var x := OpenAnswered(p, r.workbench, r.op.run, reply);
    RenderFacts(p, x, Without(w.sys.pending, 0));
    assert Loading(w.sys);
    WithoutIsPart(w.sys.pending, 0);
    assert TruthAbout(b, w, p.props.selected) <==> TruthAbout(b, u, u.sys.pane.props.selected);
    if !TruthAbout(b, u, u.sys.pane.props.selected) {
      assert StatusQueued(w.sys);
      var status :| status in w.sys.pending && BringsStatus(status.op);
      assert status in u.sys.pending;
      assert !Writing(u.sys);
      StatusBeforeWrites(u.sys, status);
    } else if IsSilent(u) && !Loading(u.sys) && u.sys.pane.file.Some? {
      assert u.taken == u.sys.pane.file.value.text by { OpenedTakes(b, w, u); }
      assert Mirrored(b, u.wc, u.sys.pane) || Restoring(u);
      if Mirrored(b, u.wc, u.sys.pane) {
        TruthAboutTheOpenFile(b, u);
      }
    }
    ListedMoves(b, w, u);
  }

  lemma OpenedTakes(b: Backend, w: World, u: World)
    requires |w.sys.pending| > 0 && Live(w.sys.pane, w.sys.pending[0].op)
    requires u == Noted(w, w.(sys := AnsweredPane(b, w))) && u.sys.pane.file.Some?
    ensures u.taken == u.sys.pane.file.value.text
  {
    hide Rendered, IsDeleted, Serve, CommittedPath, IsNew;
    var r := w.sys.pending[0];
    TheAnswerFits(b, w);
    RenderedFrame(w.sys.pane, OpenAnswered(w.sys.pane, r.workbench, r.op.run, ReplyOf(b, w, r.op)));
  }

  lemma StatusBeforeWrites(s: System, status: Pending<Request>)
    requires status in s.pending && BringsStatus(status.op) && !Writing(s)
    ensures StatusFirst(s)
  {
    var k :| 0 <= k < |s.pending| && s.pending[k] == status;
    assert forall j :: 0 <= j < |s.pending| ==> s.pending[j] in s.pending;
    assert IsStatusFirst(s, k);
  }

  /** A re-read that counts brings the record up to date. */
  lemma RereadStaysTold(b: Backend, w: World, u: World, path: Path, path': Path)
    requires Trusted(b, w, path) && |w.sys.pending| > 0
    requires var r := w.sys.pending[0].op;
             r.ReRead? && r.run == w.sys.pane.rereadRun && r.read == w.sys.pane.read
    requires u == Noted(w, w.(sys := AnsweredPane(b, w), restoring := None)) && Steady(b, u, path')
    ensures Told(b, u)
  {
    hide Rendered, IsDeleted, Serve, ServeHead, Sound, TruthfulAbout, Find, Staged;
    var p, r := w.sys.pane, w.sys.pending[0];
    RereadMovesOn(b, w);
    LoadingStaysTold(b, w, u, 1);
    ListedMoves(b, w, u);
    if Restoring(w) {
      assert Mirrored(b, u.wc, u.sys.pane);
      if IsSilent(u) && !Loading(u.sys) && u.sys.pane.file.Some? {
        AgreedIsHeads(b, u);
      }
    } else {
      RereadIsInert(b, w);
      BaseStaysHeads(b, w, u, 1);
    }
  }

  lemma RereadMovesOn(b: Backend, w: World)
    requires |w.sys.pending| > 0 && w.sys.pending[0].op.ReRead?
    ensures MovesOn(w.sys, AnsweredPane(b, w), 1) && AnsweredPane(b, w).pane.props == w.sys.pane.props
  {
    hide Rendered, IsDeleted, Serve;
    TheAnswerFits(b, w);
    var p, r, rest := w.sys.pane, w.sys.pending[0], Without(w.sys.pending, 0);
    var x := RereadAnswered(p, r.workbench, r.op.read, r.op.run, ReplyOf(b, w, r.op));
    RenderedFrame(p, x);
    RenderedIssues(p, x);
    QueuedAfter(Rendered(p, x), rest);
    assert w.sys.pending[1..] == rest;
  }

  lemma RereadIsInert(b: Backend, w: World)
    requires Sound(w.sys) && |w.sys.pending| > 0 && w.sys.pending[0].op.ReRead? && Mirrored(b, w.wc, w.sys.pane)
    requires w.sys.pane.file.Some? ==>
      w.sys.pane.file.value.path == w.sys.pending[0].op.path && !w.sys.pane.file.value.deleted
    ensures AnsweredPane(b, w) == System(w.sys.pane, Without(w.sys.pending, 0))
  {
    hide Rendered, IsDeleted, Serve;
    var p, r := w.sys.pane, w.sys.pending[0];
    InertAnswer(b, w, RereadAnswered(p, r.workbench, r.op.read, r.op.run, ReplyOf(b, w, r.op)));
  }

  /** Where the working copy agrees with HEAD, the text on record is HEAD's. */
  lemma AgreedIsHeads(b: Backend, u: World)
    requires Agrees(u.wc, u.head) && Mirrored(b, u.wc, u.sys.pane) && IsSilent(u) && Right(u.sys.pane)
    requires u.sys.pane.file.Some? && BaseKnown(b, u)
    ensures BaseText(b, u.head, u.sys.pane.file.value.path, u.taken)
  {
    hide Serve, ServeHead;
  }

  /** A save: the base was HEAD's before, so it still is. */
  lemma WrittenStaysTold(b: Backend, w: World, u: World, path: Path)
    requires Trusted(b, w, path) && |w.sys.pending| > 0 && w.sys.pending[0].op.Write?
    requires var r := w.sys.pending[0].op;
             u == Noted(w, w.(sys := AnsweredPane(b, w), reloads := u.reloads,
                     wc := if |r.draft| > b.limit then w.wc else w.wc[r.file.path := Blob(r.draft, true)]))
    ensures Told(b, u)
  {
    hide AnsweredPane, IsDeleted, Serve, ServeHead, TruthfulAbout, HeadTruth, Staged;
    var r := w.sys.pending[0];
    assert r in w.sys.pending;
    assert Writing(w.sys);
    WriteFacts(b, w);
    WithoutIsPart(w.sys.pending, 0);
    SubjectOfTheWrite(w.sys, r, path);
    assert !Loading(u.sys);
    WrittenIsListedTruly(b, w, u, path);
  }

  lemma WrittenIsListedTruly(b: Backend, w: World, u: World, path: Path)
    requires ListedTruth(b, w) && Selected(w.sys, path) && !Loading(w.sys)
    requires |w.sys.pending| > 0 && w.sys.pending[0].op.Write?
    requires var r := w.sys.pending[0].op; u.wc == w.wc || u.wc == w.wc[r.file.path := Blob(r.draft, true)]
    requires u.head == w.head && u.headId == w.headId && u.sys.pane.props == w.sys.pane.props
    ensures ListedTruth(b, u)
  {
    var r := w.sys.pending[0];
    assert r in w.sys.pending;
    assert !IsDeleted(w.sys.pane.props) && r.op.file.path == w.sys.pane.props.selected;
  }

  // --- every happening ---

  lemma OwnAnswerStaysTold(b: Backend, w: World, status: Status, id: string, path: Path, path': Path)
    requires Trusted(b, w, path) && CanHappen(b, w, Answering(status, id)) && !w.sys.pending[0].op.Bar?
    requires Steady(b, Happens(b, w, Answering(status, id)), path')
    ensures Told(b, Happens(b, w, Answering(status, id)))
  {
    hide Steady, AnsweredPane, Serve, ServeHead, IsDeleted, Truthful, Told;
    var p, r := w.sys.pane, w.sys.pending[0];
    var u := Happens(b, w, Answering(status, id));
    if r.op.Write? {
      WrittenStaysTold(b, w, u, path);
    } else if Live(p, r.op) {
      OpenedStaysTold(b, w, u, path, path');
    } else if r.op.CommittedRead? && r.op.run == p.baseRun {
      CommittedFacts(b, w);
      DroppedStaysTold(b, w, u);
    } else if r.op.ReRead? && r.op.run == p.rereadRun && r.op.read == p.read {
      RereadStaysTold(b, w, u, path, path');
    } else {
      StaleIsDropped(b, w, path);
      DroppedStaysTold(b, w, u);
    }
  }

  lemma BarAnswerStaysTold(b: Backend, w: World, status: Status, id: string, path: Path, path': Path)
    requires Trusted(b, w, path) && CanHappen(b, w, Answering(status, id)) && w.sys.pending[0].op.Bar?
    requires Tidy(b, Happens(b, w, Answering(status, id)), path')
    ensures Told(b, Happens(b, w, Answering(status, id)))
  {
    hide Steady, AnsweredPane, IsDeleted, Truthful, Step, Told;
    var call, props := w.sys.pending[0].op.call, w.sys.pane.props;
    var u := Happens(b, w, Answering(status, id));
    BarIsDropped(b, w, path);
    var s1 := AnsweredPane(b, w);
    AskFacts(s1, StatusAfterAct);
    ShowsProps(s1, NewStatus(props, status));
    ShowsProps(s1, Bumped(NewStatus(props, status)));
    match call
    case Commit =>
      if Staged(b, w.wc, w.head) == w.head {
        DroppedStaysTold(b, w, u);
      } else {
        AnotherHeadTells(b, u);
      }
    case Push => PushedStaysTold(b, w, u);
    case _ => ATrueStatusTells(b, u, path');
  }

  lemma HappeningStaysTold(b: Backend, w: World, h: Happening, path: Path, path': Path)
    requires Trusted(b, w, path) && CanHappen(b, w, h) && Orderly(b, w, h)
    requires Tidy(b, Happens(b, w, h), path')
    ensures Told(b, Happens(b, w, h))
  {
    hide IsDeleted, Step, Truthful, AnsweredPane, Told, Turns, RecordKept, BaseKnown, StatusComes, TruthAbout;
    var u, props := Happens(b, w, h), w.sys.pane.props;
    match h
    case Typing(text) => TypedStaysTold(b, w, text);
    case Saving => SavedStaysTold(b, w);
    case Selecting(next) =>
      if OpenKey(props.(selected := next)) == OpenKey(props) {
        ShownStaysTold(b, w, props.(selected := next));
      } else {
        MovedStaysTold(b, w, next);
      }
    case Clicking(call) =>
      AskedMovesOn(w.sys, call);
      AskedStaysTold(b, w, u, call);
    case Reloading =>
      AskedMovesOn(w.sys, StatusRead);
      AskedStaysTold(b, w, u, StatusRead);
    case Bumping =>
      BumpKeepsKey(props);
      ShownStaysTold(b, w, Bumped(props));
    case Answering(status, id) =>
      if w.sys.pending[0].op.Bar? {
        BarAnswerStaysTold(b, w, status, id, path, path');
      } else {
        OwnAnswerStaysTold(b, w, status, id, path, path');
      }
  }

  lemma HappeningKeepsTrusted(b: Backend, w: World, h: Happening, path: Path) returns (path': Path)
    requires Trusted(b, w, path) && CanHappen(b, w, h) && Orderly(b, w, h)
    requires Happens(b, w, h).sys.pane.overtaken.None?
    ensures Trusted(b, Happens(b, w, h), path')
  {
    hide Tidy, Told, Happens, CanHappen, Orderly;
    path' := HappeningKeepsTidy(b, w, h, path);
    HappeningStaysTold(b, w, h, path, path');
  }

  lemma {:induction false} RunKeepsTrusted(b: Backend, w: World, run: seq<Happening>, path: Path) returns (path': Path)
    requires Trusted(b, w, path) && CanRun(b, w, run) && OrderlyRun(b, w, run)
    ensures Trusted(b, Afterwards(b, w, run), path')
    decreases |run|
  {
    hide Trusted, Happens, CanHappen, Orderly;
    if run == [] {
      path' := path;
    } else {
      path' := HappeningKeepsTrusted(b, w, run[0], path);
      path' := RunKeepsTrusted(b, Happens(b, w, run[0]), run[1..], path');
    }
  }

  lemma OpeningIsTrusted(b: Backend, w: World)
    requires Opening(b, w)
    ensures Trusted(b, w, w.sys.pane.props.selected)
  {
    hide Tidy, Told;
    OpeningIsTidy(b, w);
    ATrueStatusTells(b, w, w.sys.pane.props.selected) by { TidyIsSteady(b, w, w.sys.pane.props.selected); }
  }

  lemma TidyIsSteady(b: Backend, w: World, path: Path)
    requires Tidy(b, w, path)
    ensures Steady(b, w, path)
  {
  }
}
