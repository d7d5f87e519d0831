/**
 A file the status does not list is compared with its own text. When that goes right, over every
 continuation, and the runs on which it goes wrong for good.
 */
module EditorSilence {
  import opened Checkout
  import opened CodePane
  import opened EditorBase
  import opened EditorBaseSteps
  import opened EditorDiff
  import opened EditorIdle
  import opened EditorMirror
  import opened EditorMoves
  import opened EditorRuns
  import opened EditorSafety
  import opened EditorSelection
  import opened EditorTold
  import opened Fifo
  import opened Wrappers

  // --- what git says ---

  /** The word of git on one path, if it has one. */
  function ChangeAt(b: Backend, path: Path, wc: Tree, head: Tree): seq<Change> {
    if path in wc then
      if path in head then
        if head[path] == wc[path] then [] else [Change(path, Modified, None)]
      else if b.ignores(wc, path) then [] else [Change(path, Untracked, None)]
    else if path in head then [Change(path, Deleted, None)]
    else []
  }

  lemma FindBehind(changes: seq<Change>, more: seq<Change>, path: Path)
    requires |changes| <= 1
    ensures Find(changes + more, path) ==
      if changes != [] && changes[0].path == path then Some(changes[0]) else Find(more, path)
  {
    if changes == [] {
      assert changes + more == more;
    } else {
      assert (changes + more)[1..] == more;
    }
  }

  lemma {:induction false} ChangesOver(b: Backend, paths: set<Path>, wc: Tree, head: Tree)
    returns (changes: seq<Change>)
    ensures forall path :: path !in paths ==> Find(changes, path).None?
    ensures forall path :: path in paths ==>
      var here := ChangeAt(b, path, wc, head);
      Find(changes, path) == (if here == [] then None else Some(here[0]))
  {
    if paths == {} {
      changes := [];
    } else {
      var path :| path in paths;
      var more := ChangesOver(b, paths - {path}, wc, head);
      var here := ChangeAt(b, path, wc, head);
      changes := here + more;
      forall other
        ensures Find(changes, other) == (if here != [] && other == path then Some(here[0]) else Find(more, other))
      {
        FindBehind(here, more, other);
      }
    }
  }

  /** Every checkout has a true status, silent about what is as HEAD has it. */
  lemma ATrueStatusExists(b: Backend, wc: Tree, head: Tree, headId: Option<string>) returns (status: Status)
    ensures Truthful(b, status, wc, head, headId)
    ensures forall path :: path in wc && path in head && head[path] == wc[path] ==> Find(status.changes, path).None?
  {
    var changes := ChangesOver(b, wc.Keys + head.Keys, wc, head);
    status := Status(changes, headId);
    forall path ensures TruthfulAbout(b, Find(changes, path), path, wc, head) {
      assert path in wc.Keys + head.Keys || Find(changes, path).None?;
    }
  }

  // --- a save of an unlisted file, and the statuses that follow ---

  /** An editable file on screen that the status does not list, and nothing in the queue. */
  ghost predicate Unlisted(w: World, path: Path) {
    var p := w.sys.pane;
    Sound(w.sys) && w.sys.pending == [] && p.overtaken.None? &&
    p.props.selected == path != "" && ChangeOf(p.props).None? &&
    p.file.Some? && p.file.value.path == path && !Locked(p.file.value)
  }

  /** What a save of this text changes. */
  predicate SavedAs(w: World, v: World, path: Path, text: Text) {
    v == w.(sys := v.sys, wc := w.wc[path := Blob(text, true)], reloads := w.reloads + 1) &&
    v.sys.pane.props == w.sys.pane.props && v.sys.pane.committed == w.sys.pane.committed &&
    v.sys.pane.read == w.sys.pane.read && v.sys.pane.openRun == w.sys.pane.openRun
  }

  lemma TypedUnlisted(b: Backend, w: World, path: Path, text: Text)
    requires Unlisted(w, path) && CanType(w.sys.pane)
    ensures CanHappen(b, w, Typing(text)) && Orderly(b, w, Typing(text))
    ensures var v := Happens(b, w, Typing(text));
            && Unlisted(v, path) && v.sys.pane.draft == text && CanSave(v.sys.pane)
            && v.sys.pane == w.sys.pane.(draft := text, editor := v.sys.pane.editor)
            && v == w.(sys := v.sys)
  {
    hide Step, Mount, IsDeleted, CommittedPath, IsNew;
    TypeFacts(w.sys, text);
    StepKeepsSound(w.sys, Type(text));
    WouldWrite(Step(w.sys, Type(text)));
  }

  lemma SavedUnlisted(b: Backend, w: World, path: Path)
    requires Unlisted(w, path) && CanSave(w.sys.pane) && ReadsBack(w.sys.pane.draft)
    requires w.restoring != Some(w.sys.pane.read)
    ensures CanHappen(b, w, Saving) && Orderly(b, w, Saving)
    ensures var v, p := Happens(b, w, Saving), w.sys.pane;
            && v == w.(sys := v.sys) && Sound(v.sys)
            && v.sys.pane == p.(saving := true, error := None, editor := v.sys.pane.editor)
            && v.sys.pending == [Pending(p.props.workbench, Write(p.file.value, p.draft))]
  {
    hide Step, Mount, IsDeleted, CommittedPath, IsNew;
    SaveFactsInFull(w.sys);
    StepKeepsSound(w.sys, Save);
    assert forall c :: !Asked(w.sys, c);
    assert !Loading(w.sys);
  }

  lemma AnsweredSave(b: Backend, w: World, path: Path, status: Status)
    requires Sound(w.sys) && |w.sys.pending| == 1 && w.sys.pending[0].op.Write?
    requires var r, p := w.sys.pending[0].op, w.sys.pane;
             p.overtaken.None? && p.props.selected == path != "" && ChangeOf(p.props).None? &&
             r.file.path == path && |r.draft| <= b.limit
    ensures CanHappen(b, w, Answering(status, "")) && Orderly(b, w, Answering(status, ""))
    ensures var v := Happens(b, w, Answering(status, ""));
            && Unlisted(v, path) && SavedAs(w, v, path, w.sys.pending[0].op.draft)
  {
    hide Step, Mount, IsDeleted, CommittedPath, IsNew, AnsweredPane;
    TheAnswerFits(b, w);
    WriteFacts(b, w);
    AnswerIsAStep(b, w);
    assert w.sys.pending[0] in w.sys.pending;
    StepKeepsSound(w.sys, Answer(0, ReplyOf(b, w, w.sys.pending[0].op)));
    assert Without(w.sys.pending, 0) == [];
  }

  lemma AnswerIsAStep(b: Backend, w: World)
    requires |w.sys.pending| > 0
    ensures Enabled(w.sys, Answer(0, ReplyOf(b, w, w.sys.pending[0].op)))
    ensures AnsweredPane(b, w) == Step(w.sys, Answer(0, ReplyOf(b, w, w.sys.pending[0].op)))
  {
    TheAnswerFits(b, w);
  }

  function TypeAndSave(text: Text): seq<Happening> { [Typing(text), Saving, Answering(Status([], None), "")] }

  lemma SaveOver(b: Backend, w: World, path: Path, text: Text) returns (v: World)
    requires Unlisted(w, path) && CanType(w.sys.pane) && w.restoring != Some(w.sys.pane.read)
    requires |text| <= b.limit && ReadsBack(text)
    ensures Leads(b, w, TypeAndSave(text), v)
    ensures Unlisted(v, path) && SavedAs(w, v, path, text)
  {
    hide CanHappen, Happens, Orderly, Leads, Unlisted, CanType, ReadsBack;
    assert w.sys.pane.file.Some? && w.sys.pane.file.value.path == path by { UnlistedFacts(w, path); }
    var answer := Answering(Status([], None), "");
    TypedUnlisted(b, w, path, text);
    var w1 := Happens(b, w, Typing(text));
    SavedUnlisted(b, w1, path);
    var w2 := Happens(b, w1, Saving);
    UnlistedFacts(w1, path);
    AnsweredSave(b, w2, path, Status([], None));
    v := Happens(b, w2, answer);
    UnlistedFacts(v, path);
    LeadsNowhere(b, w);
    LeadsOn(b, w, [], w, Typing(text));
    LeadsOn(b, w, [] + [Typing(text)], w1, Saving);
    LeadsOn(b, w, [] + [Typing(text)] + [Saving], w2, answer);
    assert [] + [Typing(text)] + [Saving] + [answer] == TypeAndSave(text);
  }

  lemma UnlistedFacts(w: World, path: Path)
    requires Unlisted(w, path)
    ensures w.sys.pane.overtaken.None? && w.sys.pane.props.selected == path != "" && ChangeOf(w.sys.pane.props).None?
    ensures w.sys.pane.file.Some? && w.sys.pane.file.value.path == path && Sound(w.sys) && w.sys.pending == []
  {
  }

  lemma Reloaded(b: Backend, w: World)
    requires w.sys.pending == [] && w.reloads > 0
    ensures CanHappen(b, w, Reloading)
    ensures Happens(b, w, Reloading) == w.(reloads := w.reloads - 1,
      sys := System(w.sys.pane, [Pending(w.sys.pane.props.workbench, Bar(StatusRead))]))
  {
  }

  lemma SilenceKeepsKeys(p: Pane, status: Status)
    requires ChangeOf(p.props).None? && Find(status.changes, p.props.selected).None?
    requires status.head == p.props.status.head
    ensures var props := NewStatus(p.props, status);
            BaseKey(p.(props := props)) == BaseKey(p) && OpenKey(props) == OpenKey(p.props) && ChangeOf(props).None?
  {
  }

  lemma StatusShown(b: Backend, w: World, status: Status)
    requires |w.sys.pending| == 1 && w.sys.pending[0].op == Bar(StatusRead)
    requires Truthful(b, status, w.wc, w.head, w.headId)
    requires var p, props := w.sys.pane, NewStatus(w.sys.pane.props, status);
             BaseKey(p.(props := props)) == BaseKey(p) && OpenKey(props) == OpenKey(p.props)
    ensures var p, props := w.sys.pane, NewStatus(w.sys.pane.props, status);
            && CanHappen(b, w, Answering(status, ""))
            && Happens(b, w, Answering(status, "")) == w.(sys := System(Mount(p.(props := props)), []))
  {
    hide Truthful, Mount, MonacoLanguage, Find, BaseKey, Step;
    var p, props := w.sys.pane, NewStatus(w.sys.pane.props, status);
    var s1 := System(p, []);
    assert Without(w.sys.pending, 0) == [];
    assert AnsweredPane(b, w) == s1 by { BarLeaves(b, w); }
    ShowsOnlyProps(s1, props);
    MountKeepsKey(p.(props := props));
  }

  lemma MountKeepsKey(x: Pane)
    ensures BaseKey(Mount(x)) == BaseKey(x)
  {
  }

  lemma BarLeaves(b: Backend, w: World)
    requires |w.sys.pending| > 0 && w.sys.pending[0].op.Bar?
    ensures AnsweredPane(b, w) == System(w.sys.pane, Without(w.sys.pending, 0))
  {
    assert Without(w.sys.pending, 0) + Sent(w.sys.pane.props.workbench, []) == Without(w.sys.pending, 0);
  }

  /** A true status that does not list the file either is read, and changes only what is known of others. */
  lemma SilentStatus(b: Backend, w: World, path: Path, status: Status) returns (v: World)
    requires Unlisted(w, path) && w.reloads > 0
    requires Truthful(b, status, w.wc, w.head, w.headId) && status.head == w.sys.pane.props.status.head
    requires Find(status.changes, path).None?
    ensures Leads(b, w, [Reloading, Answering(status, "")], v)
    ensures Unlisted(v, path) && v == w.(reloads := w.reloads - 1, sys := v.sys)
    ensures v.sys.pane == w.sys.pane.(props := NewStatus(w.sys.pane.props, status), editor := v.sys.pane.editor)
  {
    hide Truthful, Mount, MonacoLanguage, Find, Orderly, Leads, Happens, CanHappen, BaseKey, Step;
    var p, props := w.sys.pane, NewStatus(w.sys.pane.props, status);
    var w1 := w.(sys := System(p, [Pending(p.props.workbench, Bar(StatusRead))]), reloads := w.reloads - 1);
    Reloaded(b, w);
    SilenceKeepsKeys(p, status);
    ShowsOnlyProps(w.sys, props);
    StepKeepsSound(w.sys, Show(props));
    v := w1.(sys := System(Mount(p.(props := props)), []));
    StatusShown(b, w1, status);
    AnsweringIsOrderly(b, w, Reloading);
    AnsweringIsOrderly(b, w1, Answering(status, ""));
    LeadsNowhere(b, w);
    LeadsOn(b, w, [], w, Reloading);
    assert [] + [Reloading] == [Reloading];
    LeadsOn(b, w, [Reloading], w1, Answering(status, ""));
    assert [Reloading] + [Answering(status, "")] == [Reloading, Answering(status, "")];
  }

  lemma ShowsOnlyProps(s: System, props: Props)
    requires s.pending == []
    requires BaseKey(s.pane.(props := props)) == BaseKey(s.pane) && OpenKey(props) == OpenKey(s.pane.props)
    requires props.version == s.pane.props.version
    ensures Step(s, Show(props)) == System(Mount(s.pane.(props := props)), [])
    ensures Mount(s.pane.(props := props)) == s.pane.(props := props, editor := Mount(s.pane.(props := props)).editor)
  {
    hide BaseKey, MonacoLanguage;
  }

  /** Every outstanding reload comes in, and finds the file as HEAD has it. */
  lemma {:induction false} AllReloadsComeIn(b: Backend, w: World, path: Path, status: Status)
    returns (run: seq<Happening>, v: World)
    requires Unlisted(w, path) && Truthful(b, status, w.wc, w.head, w.headId)
    requires status.head == w.sys.pane.props.status.head && Find(status.changes, path).None?
    ensures Leads(b, w, run, v) && Quiet(v)
    ensures Unlisted(v, path) && v == w.(reloads := 0, sys := v.sys)
    ensures v.sys.pane.committed == w.sys.pane.committed && v.sys.pane.read == w.sys.pane.read
    decreases w.reloads
  {
    hide Leads, Truthful, Find;
    if w.reloads == 0 {
      LeadsNowhere(b, w);
      run, v := [], w;
    } else {
      var w1 := SilentStatus(b, w, path, status);
      run, v := AllReloadsComeIn(b, w1, path, status);
      LeadsThrough(b, w, [Reloading, Answering(status, "")], w1, run, v);
      run := [Reloading, Answering(status, "")] + run;
    }
  }

  // --- a selection under a silent status ---

  /** What a continuation is to end in, whenever nothing is outstanding and a file is open. */
  ghost predicate EndsRight(b: Backend, w: World) {
    forall run, v :: Leads(b, w, run, v) && Quiet(v) && v.sys.pane.file.Some? ==>
      (ComparesWithHead(b, v) <==> !Overlooked(b, v) || v.taken == "")
  }

  /** The status does not list this other file, which can be edited as it is here and as it is at HEAD. */
  predicate CanBeOpened(b: Backend, w: World, path: Path) {
    path != "" && path != w.sys.pane.props.selected &&
    Find(w.sys.pane.props.status.changes, path).None? &&
    path in w.wc && path in w.head && Editable(b, w.wc[path]) && Editable(b, w.head[path])
  }

  /** The queue holds reads of older renders only, and the open of this file is behind them. */
  ghost predicate OnlyOpens(b: Backend, u: World, path: Path, n: nat) {
    var p := u.sys.pane;
    && Sound(u.sys) && p.overtaken.None? && p.props.selected == path && ChangeOf(p.props).None?
    && n < |u.sys.pending| && u.sys.pending[n].op == OpenRead(path, p.openRun)
    && (forall i :: 0 <= i < n ==> Idle(p, u.sys.pending[i].op))
    && (forall i :: n < i < |u.sys.pending| ==> u.sys.pending[i].op.ReRead? && u.sys.pending[i].op.read == p.read)
  }

  /** Selecting with no call of the bar in the queue, and a version bump that makes old re-reads idle. */
  lemma SelectedAndBumped(b: Backend, w: World, path: Path, subject: Path) returns (v: World)
    requires Trusted(b, w, subject) && RereadsKnown(w.sys) && !Writing(w.sys) && !BarQueued(w.sys)
    requires CanBeOpened(b, w, path)
    ensures CanHappen(b, w, Selecting(path)) && Leads(b, Happens(b, w, Selecting(path)), [Bumping], v)
    ensures OnlyOpens(b, v, path, |w.sys.pending|) && v == w.(sys := v.sys, taken := v.taken)
    ensures v.sys.pane.read == w.sys.pane.read && v.sys.pane.props == Bumped(w.sys.pane.props.(selected := path))
  {
    hide Happens, CanHappen, Leads, Trusted, Editable, Orderly, Sound;
    TrustedFacts(b, w, subject);
    SelectedUnderSilence(b, w, path);
    SelectingStaysSound(b, w, path);
    var u := Happens(b, w, Selecting(path));
    BumpedUnderSilence(b, u);
    v := Happens(b, u, Bumping);
    LeadsNowhere(b, u);
    LeadsOn(b, u, [], u, Bumping);
    assert [] + [Bumping] == [Bumping];
    forall i | 0 <= i < |w.sys.pending| ensures Idle(v.sys.pane, v.sys.pending[i].op) {
      assert v.sys.pending[i] == u.sys.pending[i] == w.sys.pending[i];
      assert w.sys.pending[i] in w.sys.pending;
    }
  }

  /** The reads in front of it are answered, then the open, then what the bump asked for. */
  lemma Opens(b: Backend, u: World, path: Path, n: nat) returns (run: seq<Happening>, v: World)
    requires OnlyOpens(b, u, path, n) && path != "" && path in u.wc && Editable(b, u.wc[path])
    ensures Leads(b, u, run, v) && Unlisted(v, path) && CanType(v.sys.pane)
    ensures v == u.(sys := v.sys, taken := u.wc[path].text)
    ensures v.sys.pane.read == u.sys.pane.read + 1 && v.sys.pane.props == u.sys.pane.props
    ensures v.sys.pane.committed == Some(Committed(v.sys.pane.read, Held(u.wc[path].text)))
  {
    hide Happens, CanHappen, Leads, Editable, Orderly, Sound, CanType, ChangeOf, Locked;
    var front, w1 := IdleAllAnswered(b, u, n);
    assert w1.sys.pending[0] == u.sys.pending[n];
    OpenedUnderSilence(b, w1, Status([], None));
    var w2 := Happens(b, w1, ANSWER);
    AnsweringIsOrderly(b, w1, ANSWER);
    LeadsOn(b, u, front, w1, ANSWER);
    forall i | 0 <= i < |w2.sys.pending|
      ensures Idle(w2.sys.pane, w2.sys.pending[i].op) && w2.sys.pending[i].op.ReRead?
    {
      assert w2.sys.pending[i] == w1.sys.pending[i + 1] == u.sys.pending[n..][i + 1] == u.sys.pending[n + i + 1];
    }
    var back;
    back, v := IdleAllAnswered(b, w2, |w2.sys.pending|);
    LeadsThrough(b, u, front + [ANSWER], w2, back, v);
    run := front + [ANSWER] + back;
    IsUnlisted(v, path);
  }

  /** If the file is not as HEAD has it, saving HEAD's text back leaves it compared with the other one for good. */
  lemma AnUntrueSilenceMarksForGood(b: Backend, w: World, path: Path, subject: Path)
    returns (run: seq<Happening>, v: World)
    requires Trusted(b, w, subject) && RereadsKnown(w.sys) && !Writing(w.sys) && !BarQueued(w.sys)
    requires CanBeOpened(b, w, path) && w.wc[path] != w.head[path]
    ensures CanHappen(b, w, Selecting(path)) && Leads(b, Happens(b, w, Selecting(path)), run, v)
    ensures Quiet(v) && v.sys.pane.file.Some? && !ComparesWithHead(b, v) && !Overlooked(b, v)
    ensures v.sys.pane.props.selected == path && v.wc == w.wc[path := w.head[path]] && v.head == w.head
  {
    hide Happens, CanHappen, Leads, Truthful, ServeHead, Trusted, Unlisted, Editable, Find, OnlyOpens, CanType;
    TrustedFacts(b, w, subject);
    var u0 := SelectedAndBumped(b, w, path, subject);
    var u := Happens(b, w, Selecting(path));
    var opening, u1 := Opens(b, u0, path, |w.sys.pending|);
    LeadsThrough(b, u, [Bumping], u0, opening, u1);
    EditableTexts(b, w.head[path], w.wc[path]);
    var u2 := SaveOver(b, u1, path, w.head[path].text);
    LeadsThrough(b, u, [Bumping] + opening, u1, TypeAndSave(w.head[path].text), u2);
    var truth := ATrueStatusExists(b, u2.wc, u2.head, u2.headId);
    TrueHead(b, truth, u2);
    var rest;
    rest, v := AllReloadsComeIn(b, u2, path, truth);
    run := [Bumping] + opening + TypeAndSave(w.head[path].text);
    LeadsThrough(b, u, run, u2, rest, v);
    run := run + rest;
    UnlistedFacts(v, path);
    ComparedWithItself(b, v, path, w.wc[path].text);
  }

  lemma TrustedFacts(b: Backend, w: World, subject: Path)
    requires Trusted(b, w, subject)
    ensures Sound(w.sys) && RunsKnown(w.sys) && w.sys.pane.overtaken.None? && ListedTruth(b, w)
    ensures !BarQueued(w.sys) ==> w.sys.pane.props.status.head == w.headId
    ensures w.restoring.Some? ==> w.restoring.value <= w.sys.pane.read
  {
  }

  lemma IsUnlisted(w: World, path: Path)
    requires Sound(w.sys) && w.sys.pending == [] && w.sys.pane.overtaken.None?
    requires w.sys.pane.props.selected == path != "" && ChangeOf(w.sys.pane.props).None?
    requires w.sys.pane.file.Some? && w.sys.pane.file.value.path == path && !Locked(w.sys.pane.file.value)
    ensures Unlisted(w, path)
  {
  }

  lemma EditableTexts(b: Backend, one: Blob, other: Blob)
    requires Editable(b, one) && Editable(b, other)
    ensures |one.text| <= b.limit && ReadsBack(one.text) && one == Blob(one.text, true)
    ensures one.text == other.text ==> one == other
  {
  }

  lemma TrueHead(b: Backend, status: Status, w: World)
    requires Truthful(b, status, w.wc, w.head, w.headId)
    ensures status.head == w.headId
  {
  }

  lemma ComparedWithItself(b: Backend, v: World, path: Path, text: Text)
    requires v.sys.pane.file.Some? && v.sys.pane.props.selected == path != "" && ChangeOf(v.sys.pane.props).None?
    requires v.sys.pane.committed == Some(Committed(v.sys.pane.read, Held(text)))
    requires path in v.head && Editable(b, v.head[path]) && v.head[path].text != text
    ensures !ComparesWithHead(b, v) && !Overlooked(b, v)
  {
    EditableIsShown(b, path, v.head[path]);
  }

  /** A state an orderly run from an opening leads to. */
  ghost predicate Led(b: Backend, start: World, before: seq<Happening>, w: World) {
    Opening(b, start) && Leads(b, start, before, w)
  }

  lemma LedIsTrusted(b: Backend, start: World, before: seq<Happening>, w: World) returns (subject: Path)
    requires Led(b, start, before, w)
    ensures Trusted(b, w, subject) && RereadsKnown(w.sys)
  {
    hide Trusted, RereadsKnown;
    OpeningIsTrusted(b, start);
    subject := RunKeepsTrusted(b, start, before, start.sys.pane.props.selected);
    StartsKnown(start.sys.pane.props);
    LedKeepsRereadsKnown(b, start, before, w);
  }

  /**
   With no save in flight, every orderly continuation of a selection ends right if the status lists the
   file, or is rightly silent about it, or any call of the bar or of a reload stands in the queue: a
   status that comes before the open, a commit that makes the present one old, or a push whose status
   comes before any save of the file.
   */
  lemma ATrueOrQueuedWordEndsRight(b: Backend, start: World, before: seq<Happening>, w: World, path: Path)
    requires Led(b, start, before, w) && !Writing(w.sys)
    requires Find(w.sys.pane.props.status.changes, path).Some? || TruthAbout(b, w, path) || BarQueued(w.sys)
    ensures CanHappen(b, w, Selecting(path)) && EndsRight(b, Happens(b, w, Selecting(path)))
  {
    hide Happens, Trusted, Serve, ServeHead, TruthAbout, Find;
    var subject := LedIsTrusted(b, start, before, w);
    TrustedFacts(b, w, subject);
    assert TruthAbout(b, w, path) || BarQueued(w.sys) by {
      if !TruthAbout(b, w, path) {
        UntrueIsStaged(b, w, path);
      }
    }
    SelectingOvertakesNothing(b, w, path);
    var subject' := HappeningKeepsTrusted(b, w, Selecting(path), subject);
    TrustedEndsRight(b, Happens(b, w, Selecting(path)), subject');
  }

  lemma SelectingOvertakesNothing(b: Backend, w: World, path: Path)
    ensures CanHappen(b, w, Selecting(path))
    ensures Happens(b, w, Selecting(path)).sys.pane.overtaken == w.sys.pane.overtaken
  {
    ShowOvertakesNothing(w.sys, w.sys.pane.props.(selected := path));
  }

  lemma TrustedEndsRight(b: Backend, u: World, subject: Path)
    requires Trusted(b, u, subject)
    ensures EndsRight(b, u)
  {
    hide Trusted, ComparesWithHead, Overlooked, Quiet;
    forall run, v | Leads(b, u, run, v) && Quiet(v) && v.sys.pane.file.Some?
      ensures ComparesWithHead(b, v) <==> !Overlooked(b, v) || v.taken == ""
    {
      var subject' := RunKeepsTrusted(b, u, run, subject);
      QuietIsCompared(b, v, subject');
    }
  }

  /**
   When to believe a status that is silent about a file HEAD holds. With no save in flight, every
   orderly continuation of the selection ends right if and only if the file is, at the selection, as
   HEAD has it, or a call of the bar or of a reload stands in the queue.
   */
  lemma ASelectionEndsRightExactly(b: Backend, start: World, before: seq<Happening>, w: World, path: Path)
    requires Led(b, start, before, w) && !Writing(w.sys) && CanBeOpened(b, w, path)
    ensures CanHappen(b, w, Selecting(path))
    ensures EndsRight(b, Happens(b, w, Selecting(path))) <==> w.wc[path] == w.head[path] || BarQueued(w.sys)
  {
    hide Happens, Led, Trusted, RereadsKnown, EndsRight, Editable;
    if w.wc[path] == w.head[path] || BarQueued(w.sys) {
      ATrueOrQueuedWordEndsRight(b, start, before, w, path);
    } else {
      var subject := LedIsTrusted(b, start, before, w);
      var run, v := AnUntrueSilenceMarksForGood(b, w, path, subject);
      EndsWrong(b, Happens(b, w, Selecting(path)), run, v);
    }
  }

  lemma EndsWrong(b: Backend, u: World, run: seq<Happening>, v: World)
    requires Leads(b, u, run, v) && Quiet(v) && v.sys.pane.file.Some? && !ComparesWithHead(b, v) && !Overlooked(b, v)
    ensures !EndsRight(b, u)
  {
  }

  // --- such a run, from the opening ---

  lemma SelectedNothing(b: Backend, w: World)
    requires w.sys.pending == [] && ChangeOf(w.sys.pane.props).None? && w.sys.pane.props.selected != ""
    requires Sound(w.sys) && w.sys.pane.overtaken.None?
    ensures CanHappen(b, w, Selecting("")) && Orderly(b, w, Selecting(""))
    ensures var u := Happens(b, w, Selecting(""));
            && u == w.(sys := u.sys, taken := u.taken) && u.sys.pending == []
            && u.sys.pane.props == w.sys.pane.props.(selected := "") && u.sys.pane.overtaken.None?
  {
    hide Mount, MonacoLanguage;
    var props := w.sys.pane.props.(selected := "");
    var x := w.sys.pane.(props := props);
    assert CommittedPath(props).None? && !IsNew(props);
    assert Rendered(w.sys.pane, x).issued == [];
    RenderedFrame(w.sys.pane, x);
  }

  /** Open the selected file, save t1 over it, and go away. */
  function SaveAndLeave(t1: Text): seq<Happening> {
    [Answering(Status([], None), "")] + TypeAndSave(t1) + [Selecting("")]
  }

  /**
   One save of t1 over HEAD's t0 is answered and its status is not, when the file is selected again.
   The developer saves t0 back, every outstanding call is answered, every status is true - and the
   diff goes on comparing t0 with t1. That selection is the one step that was not orderly.
   */
  lemma ASilentStatusMarksForGood(b: Backend, start: World, path: Path, t0: Text, t1: Text)
    returns (w: World, rest: seq<Happening>, v: World)
    requires Opening(b, start) && start.sys.pane.props.selected == path != "" && ChangeOf(start.sys.pane.props).None?
    requires path in start.wc && path in start.head && start.wc[path] == start.head[path] == Blob(t0, true)
    requires Editable(b, Blob(t0, true)) && Editable(b, Blob(t1, true)) && t0 != t1
    ensures Leads(b, start, SaveAndLeave(t1), w)
    ensures CanHappen(b, w, Selecting(path)) && Leads(b, Happens(b, w, Selecting(path)), rest, v)
    ensures Quiet(v) && v.sys.pane.file.Some? && v.wc == start.wc && v.head == start.head
    ensures !ComparesWithHead(b, v) && !Overlooked(b, v)
  {
    hide Happens, CanHappen, Leads, Opening, Editable, Unlisted, Orderly, Trusted, Find, Start, ReadsBack, Truthful;
    var status := Status([], None);
    assert OpenedOn(start) by { OpeningAsks(b, start); }
    StartIsSound(start.sys.pane.props);
    OpenedUnderSilence(b, start, status);
    var w1 := Happens(b, start, Answering(status, ""));
    AnsweringIsOrderly(b, start, Answering(status, ""));
    LeadsNowhere(b, start);
    LeadsOn(b, start, [], start, Answering(status, ""));
    IsUnlisted(w1, path);
    EditableTexts(b, Blob(t1, true), Blob(t0, true));
    var w2 := SaveOver(b, w1, path, t1);
    LeadsThrough(b, start, [] + [Answering(status, "")], w1, TypeAndSave(t1), w2);
    UnlistedFacts(w2, path);
    SelectedNothing(b, w2);
    w := Happens(b, w2, Selecting(""));
    LeadsOn(b, start, [] + [Answering(status, "")] + TypeAndSave(t1), w2, Selecting(""));
    assert [] + [Answering(status, "")] + TypeAndSave(t1) + [Selecting("")] == SaveAndLeave(t1);
    OpeningIsTrusted(b, start);
    assert CanRun(b, start, SaveAndLeave(t1)) && OrderlyRun(b, start, SaveAndLeave(t1)) &&
      Afterwards(b, start, SaveAndLeave(t1)) == w by { LedThere(b, start, SaveAndLeave(t1), w); }
    var subject := RunKeepsTrusted(b, start, SaveAndLeave(t1), start.sys.pane.props.selected);
    assert RereadsKnown(w.sys) by {
      StartsKnown(start.sys.pane.props);
      LedKeepsRereadsKnown(b, start, SaveAndLeave(t1), w);
    }
    rest, v := AnUntrueSilenceMarksForGood(b, w, path, subject);
    assert v.wc == start.wc;
  }

  lemma LedThere(b: Backend, w: World, run: seq<Happening>, v: World)
    requires Leads(b, w, run, v)
    ensures CanRun(b, w, run) && OrderlyRun(b, w, run) && Afterwards(b, w, run) == v
  {
  }

  predicate OpenedOn(w: World) {
    var p := w.sys.pane;
    w.sys == Start(p.props) && w.sys.pending == [Pending(p.props.workbench, OpenRead(p.props.selected, p.openRun))] &&
    w.reloads == 0 && w.restoring.None? && p.overtaken.None?
  }

  lemma OpeningAsks(b: Backend, w: World)
    requires Opening(b, w) && w.sys.pane.props.selected != "" && ChangeOf(w.sys.pane.props).None?
    ensures OpenedOn(w)
  {
  }
}
