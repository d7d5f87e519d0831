/**
 What the diff compares with. On one checkout, once nothing is outstanding, the original
 side of the editor is what HEAD holds of the open file.
 */
module EditorBase {
  import opened Checkout
  import opened CodePane
  import opened EditorMirror
  import opened EditorSafety
  import opened EditorSelection
  import opened Fifo
  import opened Wrappers

  // --- the base effect, stage by stage ---

  /** The base the render of `q` derives from what `shown` had on record. */
  ghost predicate Derived(shown: Pane, q: Pane, issued: seq<Request>) {
    match CommittedPath(q.props)
    case Some(path) => CommittedRead(path, q.read, q.baseRun) in issued
    case None => q.committed == Some(Committed(q.read, Held(if IsNew(q.props) then "" else SavedText(shown))))
  }

  /** A read of HEAD that its effect has not abandoned asks for what the key on screen asks for. */
  ghost predicate HeadReadCurrent(q: Pane, r: Request) {
    r.CommittedRead? ==>
      r.read > 0 && r.run <= q.baseRun &&
      (r.run == q.baseRun ==> CommittedPath(q.props) == Some(r.path) && r.read == q.read)
  }

  /** The base the effect derives from what `shown` had on record. */
  ghost predicate DerivedFrom(shown: Pane, t: Turn) {
    match CommittedPath(shown.props)
    case Some(path) => CommittedRead(path, shown.read, t.pane.baseRun) in t.issued
    case None =>
      t.pane.committed == Some(Committed(shown.read, Held(if IsNew(shown.props) then "" else SavedText(shown))))
  }

  lemma BaseStageDerives(before: Pane, x: Pane, t: Turn)
    ensures var u := BaseStage(before, x, t);
            && (BaseKey(x) == BaseKey(before) || x.read == 0 ==> u == t)
            && (BaseKey(x) != BaseKey(before) && x.read > 0 ==>
                  u.pane.baseRun == t.pane.baseRun + 1 && DerivedFrom(x, u))
            && forall r :: r in u.issued && r !in t.issued ==> r.read > 0
  {
    if BaseKey(x) != BaseKey(before) && x.read > 0 && CommittedPath(x.props).Some? {
      var r := CommittedRead(CommittedPath(x.props).value, x.read, t.pane.baseRun + 1);
      assert BaseStage(before, x, t).issued == t.issued + [r];
    }
  }

  lemma AgainStageDerives(x: Pane, t: Turn)
    ensures var u := AgainStage(x, t);
            && (t.pane.read == x.read ==> u == t)
            && (t.pane.read != x.read && t.pane.read > 0 ==>
                  u.pane.baseRun == t.pane.baseRun + 1 && DerivedFrom(t.pane, u))
            && forall r :: r in u.issued && r !in t.issued ==> r.read > 0
  {
    if t.pane.read != x.read && t.pane.read > 0 && CommittedPath(t.pane.props).Some? {
      var r := CommittedRead(CommittedPath(t.pane.props).value, t.pane.read, t.pane.baseRun + 1);
      assert AgainStage(x, t).issued == t.issued + [r];
    }
  }

  /** The base is derived again exactly when its key moved, from the text then on record. */
  lemma RenderedBase(before: Pane, x: Pane)
    ensures var t := Rendered(before, x);
            var q := t.pane;
            && q.baseRun >= x.baseRun
            && (BaseKey(x) == BaseKey(before) && q.read == x.read ==>
                  q.committed == x.committed && q.baseRun == x.baseRun &&
                  forall r :: r in t.issued ==> !r.CommittedRead?)
            && (!(BaseKey(x) == BaseKey(before) && q.read == x.read) && q.read > 0 ==>
                  q.baseRun > x.baseRun && Derived(if q.read == x.read then x else q, q, t.issued))
            && (forall r :: r in t.issued ==> HeadReadCurrent(q, r) && (r.CommittedRead? ==> r.run > x.baseRun))
  {
    hide OpenStage, BaseStage, RereadStage, AgainStage, OpenEffect, RereadEffect, BaseEffect, BaseKey;
    hide IsDeleted, MonacoLanguage, CommittedPath, IsNew;
    var t1 := OpenStage(before, x);
    OpenStageFacts(before, x);
    OpenIssuesNoHeadRead(before, x);
    var t2 := BaseStage(before, x, t1);
    BaseStageFacts(before, x, t1);
    BaseStageDerives(before, x, t1);
    var t3 := RereadStage(before, x, t2);
    RereadStageFacts(before, x, t2);
    var t4 := AgainStage(x, t3);
    AgainStageFacts(x, t3);
    AgainStageDerives(x, t3);
    var q := Rendered(before, x).pane;
    assert Rendered(before, x).issued == t4.issued;
    assert SavedText(q) == SavedText(t3.pane);
    assert forall r :: r in t2.issued ==> r in t4.issued;
  }

  /** A version bump asks for the file on screen again, under the run that will be listened to. */
  lemma RenderedReread(before: Pane, x: Pane)
    ensures var t := Rendered(before, x);
            && (x.props.version == before.props.version ==> t.pane.rereadRun == x.rereadRun)
            && (x.props.version != before.props.version && x.file.Some? && !x.file.value.deleted ==>
                  ReRead(x.file.value.path, x.read, t.pane.rereadRun) in t.issued)
  {
    hide OpenStage, BaseStage, AgainStage, OpenEffect, BaseEffect, IsDeleted, MonacoLanguage, CommittedPath, IsNew;
    var t1 := OpenStage(before, x);
    OpenStageFacts(before, x);
    var t2 := BaseStage(before, x, t1);
    BaseStageFacts(before, x, t1);
    var t3 := RereadStage(before, x, t2);
    RereadStageFacts(before, x, t2);
    var t4 := AgainStage(x, t3);
    AgainStageFacts(x, t3);
    assert Rendered(before, x).issued == t4.issued && Rendered(before, x).pane.rereadRun == t4.pane.rereadRun;
    if x.props.version != before.props.version && x.file.Some? && !x.file.value.deleted {
      var r := ReRead(x.file.value.path, x.read, t3.pane.rereadRun);
      assert t3.issued == t2.issued + [r];
      assert r in t3.issued;
    }
  }

  lemma OpenIssuesNoHeadRead(before: Pane, x: Pane)
    ensures forall r :: r in OpenStage(before, x).issued ==> !r.CommittedRead?
  {
  }

  // --- the discipline ---

  /** The re-read after a discard or a stash is still out, for what is on screen. */
  predicate Restoring(w: World) {
    w.restoring == Some(w.sys.pane.read) && w.sys.pane.file.Some? && !w.sys.pane.file.value.deleted
  }

  ghost predicate Asked(s: System, call: BarCall) {
    exists r :: r in s.pending && r.op == Bar(call)
  }

  /** A discard or a stash is under way, its re-read included. */
  ghost predicate Moving(w: World) {
    Asked(w.sys, Discard) || Asked(w.sys, Stash) || Restoring(w)
  }

  predicate Clean(p: Pane) { p.file.Some? ==> p.draft == p.file.value.text }

  /** If the status on screen knows the commit, it tells the truth about this one file. */
  predicate TruthAbout(b: Backend, w: World, path: Path) {
    var status := w.sys.pane.props.status;
    status.head == w.headId && path != "" ==> TruthfulAbout(b, Find(status.changes, path), path, w.wc, w.head)
  }

  /** Some call of the bar or of a reload stands in the queue. */
  ghost predicate BarQueued(s: System) {
    exists r :: r in s.pending && r.op.Bar?
  }

  /**
   No save overlaps a selection, a discard or a stash, no saved text has a NUL, and when a file is
   selected, what the status says of it is true or a call of the bar stands in the queue. Edits may
   be open under all of it.
   */
  ghost predicate Orderly(b: Backend, w: World, h: Happening) {
    match h
    case Saving => !Moving(w) && !Loading(w.sys) && ReadsBack(w.sys.pane.draft)
    case Selecting(path) => !Writing(w.sys) && (TruthAbout(b, w, path) || BarQueued(w.sys))
    case Clicking(call) => call.Discard? || call.Stash? ==> !Writing(w.sys)
    case _ => true
  }

  /** The pane never says that unsaved edits were overtaken. */
  ghost predicate OrderlyRun(b: Backend, w: World, run: seq<Happening>)
    requires CanRun(b, w, run)
    decreases |run|
  {
    run == [] ||
    (Orderly(b, w, run[0]) && Happens(b, w, run[0]).sys.pane.overtaken.None? &&
     OrderlyRun(b, Happens(b, w, run[0]), run[1..]))
  }

  // --- the invariant ---

  /** If the status knows the commit, it tells the truth about the files. */
  ghost predicate HeadTruth(b: Backend, w: World) {
    w.sys.pane.props.status.head == w.headId ==> Truthful(b, w.sys.pane.props.status, w.wc, w.head, w.headId)
  }

  ghost predicate Turns(b: Backend, w: World) {
    && (Loading(w.sys) ==> !Writing(w.sys))
    && (Writing(w.sys) ==> !Moving(w) && w.sys.pane.file.Some?)
    && (Restoring(w) ==> Agrees(w.wc, w.head) && Rereading(w.sys))
    && (w.restoring.Some? ==> w.restoring.value <= w.sys.pane.read)
  }

  /** The re-read of what is on screen is out, and will be listened to. */
  ghost predicate Rereading(s: System) {
    exists r :: r in s.pending && r.op.ReRead? && r.op.run == s.pane.rereadRun && r.op.read == s.pane.read
  }

  ghost predicate StatusComes(b: Backend, w: World) {
    && (HeadTruth(b, w) || w.reloads > 0 || Asked(w.sys, StatusRead))
    && (w.sys.pane.props.status.head != w.headId ==> Asked(w.sys, StatusAfterAct))
    && (w.headId.Some? ==> w.headId.value in w.ids)
    && (w.sys.pane.props.status.head.Some? ==> w.sys.pane.props.status.head.value in w.ids)
  }

  ghost predicate RecordKept(b: Backend, w: World) {
    && (Mirrored(b, w.wc, w.sys.pane) || Restoring(w))
    && w.sys.pane.overtaken.None?
    && (w.sys.pane.file.Some? ==> w.sys.pane.read > 0)
    && forall r :: r in w.sys.pending ==> HeadReadCurrent(w.sys.pane, r.op) && (r.op.Write? ==> ReadsBack(r.op.draft))
  }

  /** What the editor would be served of HEAD's file. */
  function HeadText(b: Backend, head: Tree, path: Path): Text {
    if path in head then Serve(b, path, head[path]).text else ""
  }

  ghost predicate BaseComing(s: System) {
    exists r :: r in s.pending && r.op.CommittedRead? && r.op.run == s.pane.baseRun
  }

  /**
   The base belongs to the read on screen. It is HEAD's as far as the status knows HEAD, but for a
   file the status is silent about: its base is the text it was taken with, and that is HEAD's or
   still the one on record.
   */
  ghost predicate BaseKnown(b: Backend, w: World) {
    var p := w.sys.pane;
    var current := p.props.status.head == w.headId;
    match CommittedPath(p.props)
    case Some(path) =>
      BaseComing(w.sys) ||
      (p.committed.Some? && p.committed.value.read == p.read &&
       (current ==> p.committed.value.side == SideOf(ServeHead(b, w.head, path))))
    case None =>
      && p.committed.Some? && p.committed.value.read == p.read && p.committed.value.side.Held?
      && (IsNew(p.props) ==> p.committed.value.side.text == "")
      && (!IsNew(p.props) ==> p.committed.value.side.text == w.taken)
      && (!IsNew(p.props) && current && p.file.Some? ==>
            BaseText(b, w.head, p.file.value.path, w.taken) || w.taken == p.file.value.text)
  }

  predicate BaseText(b: Backend, head: Tree, path: Path, text: Text) {
    path in head ==> text == Serve(b, path, head[path]).text
  }

  /** All of it but the promise of a status. */
  ghost predicate Steady(b: Backend, w: World, path: Path) {
    && Sound(w.sys) && Selected(w.sys, path)
    && Turns(b, w) && RecordKept(b, w)
    && (!Loading(w.sys) && w.sys.pane.file.Some? ==> BaseKnown(b, w))
  }

  ghost predicate Tidy(b: Backend, w: World, path: Path) {
    Steady(b, w, path) && StatusComes(b, w)
  }

  // --- why silence can be believed ---

  /** The answer to it is, or carries, a status. */
  predicate BringsStatus(request: Request) {
    request.Bar? && !request.call.Commit? && !request.call.Push?
  }

  ghost predicate StatusQueued(s: System) {
    exists r :: r in s.pending && BringsStatus(r.op)
  }

  predicate AheadOfOpens(s: System, k: int) {
    0 <= k < |s.pending| && forall m :: 0 <= m < |s.pending| && Live(s.pane, s.pending[m].op) ==> k < m
  }

  /** A push has its status read behind it, and a commit makes the status on screen one of another HEAD. */
  predicate WillTell(b: Backend, w: World, request: Request) {
    request == Bar(Push) || (request == Bar(Commit) && Staged(b, w.wc, w.head) != w.head)
  }

  /** What the status says of a file being opened is true, or a true one comes before the file can be saved. */
  ghost predicate LoadingIsTold(b: Backend, w: World) {
    Loading(w.sys) ==>
      TruthAbout(b, w, w.sys.pane.props.selected) || StatusQueued(w.sys) ||
      exists k :: AheadOfOpens(w.sys, k) && WillTell(b, w, w.sys.pending[k].op)
  }

  /** A status comes before any save is answered. */
  predicate IsStatusFirst(s: System, k: int) {
    0 <= k < |s.pending| && BringsStatus(s.pending[k].op) && forall j :: 0 <= j < k ==> !s.pending[j].op.Write?
  }

  ghost predicate StatusFirst(s: System) { exists k :: IsStatusFirst(s, k) }

  predicate IsSilent(w: World) {
    var props := w.sys.pane.props;
    CommittedPath(props).None? && !IsNew(props) && props.status.head == w.headId
  }

  /** The base of a file the status is silent about is HEAD's, or a re-read or a status comes first. */
  ghost predicate BaseIsHeads(b: Backend, w: World) {
    IsSilent(w) && !Loading(w.sys) && w.sys.pane.file.Some? ==>
      BaseText(b, w.head, w.sys.pane.file.value.path, w.taken) || Restoring(w) || StatusFirst(w.sys)
  }

  /** Saves make files unlisted by mistake, never listed by mistake. */
  ghost predicate ListedTruth(b: Backend, w: World) {
    var status := w.sys.pane.props.status;
    status.head == w.headId ==>
      forall path: Path :: Find(status.changes, path).Some? ==>
        TruthfulAbout(b, Find(status.changes, path), path, w.wc, w.head)
  }

  ghost predicate Told(b: Backend, w: World) {
    LoadingIsTold(b, w) && BaseIsHeads(b, w) && ListedTruth(b, w)
  }

  ghost predicate Trusted(b: Backend, w: World, path: Path) {
    Tidy(b, w, path) && Told(b, w)
  }

  // --- one step of the system, as far as the invariant looks ---

  /** What the queue and the pane are after a render. */
  ghost predicate Follows(p: Pane, x: Pane, pending: seq<Pending<Request>>, s: System) {
    var q := s.pane;
    && q.props == x.props && q.overtaken == x.overtaken
    && q.read >= x.read && q.openRun >= x.openRun && q.baseRun >= x.baseRun && q.rereadRun >= x.rereadRun
    && (OpenKey(x.props) == OpenKey(p.props) ==> SameFile(x, q))
    && (OpenKey(x.props) != OpenKey(p.props) ==> SameFile(OpenEffect(x).pane, q))
    && (forall r :: r in pending ==> r in s.pending)
    && (forall r :: r in s.pending && r !in pending ==>
          !r.op.Write? && !r.op.Bar? && HeadReadCurrent(q, r.op) &&
          (r.op.OpenRead? ==> OpenKey(x.props) != OpenKey(p.props)))
    && (BaseKey(x) == BaseKey(p) && q.read == x.read ==> q.committed == x.committed && q.baseRun == x.baseRun)
    && (!(BaseKey(x) == BaseKey(p) && q.read == x.read) && q.read > 0 ==> q.baseRun > x.baseRun && Rederived(x, s))
    && (x.props.version == p.props.version ==> q.rereadRun == x.rereadRun)
    && (x.props.version != p.props.version && x.file.Some? && !x.file.value.deleted && q.read == x.read ==>
          Rereading(s))
  }

  /** The base is on its way, or taken from the text on record. */
  ghost predicate Rederived(x: Pane, s: System) {
    match CommittedPath(s.pane.props)
    case Some(path) => BaseComing(s)
    case None =>
      s.pane.committed == Some(Committed(s.pane.read,
        Held(if IsNew(s.pane.props) then "" else SavedText(if s.pane.read == x.read then x else s.pane))))
  }

  lemma RenderFacts(p: Pane, x: Pane, pending: seq<Pending<Request>>)
    ensures Follows(p, x, pending, After(Rendered(p, x), pending))
  {
    hide Rendered, IsDeleted, OpenEffect, BaseKey;
    var t := Rendered(p, x);
    RenderedFrame(p, x);
    RenderedIssues(p, x);
    RenderedBase(p, x);
    RenderedReread(p, x);
    QueuedAfter(t, pending);
    AfterPane(t, pending);
    BaseFacts(p, x, pending);
    if x.props.version != p.props.version && x.file.Some? && !x.file.value.deleted {
      var r := Pending(t.pane.props.workbench, ReRead(x.file.value.path, x.read, t.pane.rereadRun));
      assert r in After(t, pending).pending;
    }
  }

  lemma BaseFacts(p: Pane, x: Pane, pending: seq<Pending<Request>>)
    ensures var s := After(Rendered(p, x), pending);
            !(BaseKey(x) == BaseKey(p) && s.pane.read == x.read) && s.pane.read > 0 ==> Rederived(x, s)
  {
    hide Rendered, IsDeleted, OpenEffect, BaseKey;
    var t := Rendered(p, x);
    RenderedBase(p, x);
    RenderedFrame(p, x);
    QueuedAfter(t, pending);
    AfterPane(t, pending);
    if CommittedPath(t.pane.props).Some? {
      var path := CommittedPath(t.pane.props).value;
      var r := Pending(t.pane.props.workbench, CommittedRead(path, t.pane.read, t.pane.baseRun));
      assert r.op in t.issued ==> r in After(t, pending).pending;
    }
  }
}
