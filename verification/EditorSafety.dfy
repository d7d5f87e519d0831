/**
 What the Files pane keeps over every run, with an environment that may answer anything
 and show anything: no assumption is made about the checkout, the status or the order in
 which the parent re-renders.
 */
module EditorSafety {
  import opened CodePane
  import opened Fifo
  import opened Wrappers

  // --- what a render does, stage by stage ---

  /** What every stage leaves alone. */
  ghost predicate Frame(p: Pane, q: Pane) {
    && q.props == p.props && q.overtaken == p.overtaken && q.saving == p.saving && q.editor == p.editor
    && q.read >= p.read && q.openRun >= p.openRun && q.baseRun >= p.baseRun && q.rereadRun >= p.rereadRun
  }

  /** What the stages after the open leave alone as well. */
  ghost predicate SameFile(p: Pane, q: Pane) {
    q.file == p.file && q.draft == p.draft && q.read == p.read && q.error == p.error && q.openRun == p.openRun
  }

  lemma OpenStageFacts(before: Pane, x: Pane)
    ensures var t := OpenStage(before, x);
            && Frame(x, t.pane) && t.pane.committed == x.committed && t.pane.baseRun == x.baseRun
            && t.pane.rereadRun == x.rereadRun
            && (OpenKey(x.props) == OpenKey(before.props) ==> t == Turn(x, []))
            && (OpenKey(x.props) != OpenKey(before.props) ==> t == OpenEffect(x))
  {
  }

  lemma BaseStageFacts(before: Pane, x: Pane, t: Turn)
    ensures var u := BaseStage(before, x, t);
            && Frame(t.pane, u.pane) && SameFile(t.pane, u.pane) && u.pane.rereadRun == t.pane.rereadRun
            && (BaseKey(x) == BaseKey(before) ==> u == t)
            && t.issued <= u.issued
            && forall r :: r in u.issued && r !in t.issued ==>
                 r.CommittedRead? && CommittedPath(x.props) == Some(r.path) &&
                 r.read == x.read && r.run == u.pane.baseRun
  {
  }

  lemma RereadStageFacts(before: Pane, x: Pane, t: Turn)
    ensures var u := RereadStage(before, x, t);
            && Frame(t.pane, u.pane) && SameFile(t.pane, u.pane)
            && u.pane.committed == t.pane.committed && u.pane.baseRun == t.pane.baseRun
            && t.issued <= u.issued
            && (x.props.version == before.props.version ==> u == t)
            && forall r :: r in u.issued && r !in t.issued ==>
                 r.ReRead? && x.props.version != before.props.version && r.read == x.read &&
                 r.run == u.pane.rereadRun == t.pane.rereadRun + 1 &&
                 x.file.Some? && !x.file.value.deleted && r.path == x.file.value.path
  {
  }

  lemma AgainStageFacts(x: Pane, t: Turn)
    ensures var u := AgainStage(x, t);
            && Frame(t.pane, u.pane) && SameFile(t.pane, u.pane) && u.pane.rereadRun == t.pane.rereadRun
            && (t.pane.read == x.read ==> u == t)
            && t.issued <= u.issued
            && forall r :: r in u.issued && r !in t.issued ==>
                 r.CommittedRead? && CommittedPath(t.pane.props) == Some(r.path) && r.read == t.pane.read &&
                 r.run == u.pane.baseRun
  {
  }

  /** A render touches the file, the draft and the read only when the selection's key moved. */
  lemma RenderedFrame(before: Pane, x: Pane)
    ensures var q := Rendered(before, x).pane;
            && q.props == x.props && q.overtaken == x.overtaken && q.saving == x.saving
            && q.read >= x.read && q.openRun >= x.openRun && q.baseRun >= x.baseRun && q.rereadRun >= x.rereadRun
    ensures OpenKey(x.props) == OpenKey(before.props) ==> SameFile(x, Rendered(before, x).pane)
    ensures OpenKey(x.props) != OpenKey(before.props) ==> SameFile(OpenEffect(x).pane, Rendered(before, x).pane)
  {
    hide OpenStage, BaseStage, RereadStage, AgainStage, OpenEffect, BaseEffect, RereadEffect, IsDeleted, MonacoLanguage;
    OpenStageFacts(before, x);
    BaseStageFacts(before, x, OpenStage(before, x));
    RereadStageFacts(before, x, BaseStage(before, x, OpenStage(before, x)));
    AgainStageFacts(x, Flushed(before, x));
  }

  /** What a render can ask for, and that it asks for the file when the key moved to one. */
  lemma RenderedIssues(before: Pane, x: Pane)
    ensures var t := Rendered(before, x);
            forall r :: r in t.issued ==>
              match r
              case OpenRead(path, run) =>
                OpenKey(x.props) != OpenKey(before.props) && path == x.props.selected && path != "" &&
                !IsDeleted(x.props) && run == x.openRun + 1
              case ReRead(path, read, run) =>
                x.props.version != before.props.version && read == x.read &&
                run == t.pane.rereadRun == x.rereadRun + 1 &&
                x.file.Some? && !x.file.value.deleted && path == x.file.value.path
              case CommittedRead(path, read, run) => CommittedPath(x.props) == Some(path)
              case _ => false
    ensures OpenKey(x.props) != OpenKey(before.props) && x.props.selected != "" && !IsDeleted(x.props) ==>
              OpenRead(x.props.selected, x.openRun + 1) in Rendered(before, x).issued
  {
    hide OpenStage, BaseStage, RereadStage, AgainStage, BaseEffect, RereadEffect;
    hide IsDeleted, MonacoLanguage, CommittedPath;
    OpenStageFacts(before, x);
    BaseStageFacts(before, x, OpenStage(before, x));
    RereadStageFacts(before, x, BaseStage(before, x, OpenStage(before, x)));
    AgainStageFacts(x, Flushed(before, x));
    assert OpenStage(before, x).issued <= Rendered(before, x).issued;
    if OpenKey(x.props) != OpenKey(before.props) && x.props.selected != "" && !IsDeleted(x.props) {
      assert OpenStage(before, x).issued == [OpenRead(x.props.selected, x.openRun + 1)];
      assert Rendered(before, x).issued[0] == OpenRead(x.props.selected, x.openRun + 1);
    }
  }

  // --- the editor shows the draft, and read-only files are never written ---

  ghost predicate EditorShowsDraft(p: Pane) {
    && (p.editor.Some? <==> ShownAsText(p.file))
    && (p.editor.Some? ==>
          p.editor.value.read == p.read && p.editor.value.text == p.draft &&
          p.editor.value.path == p.file.value.path &&
          p.editor.value.language == MonacoLanguage(p.file.value.language, p.file.value.path) &&
          (p.file.value.deleted ==> p.editor.value.readOnly))
  }

  predicate Locked(file: OpenFile) { file.binary || file.truncated || file.deleted }

  ghost predicate LockedIsClean(p: Pane) {
    p.file.Some? && Locked(p.file.value) ==> p.draft == p.file.value.text
  }

  ghost predicate WritesUnlocked(pending: seq<Pending<Request>>) {
    forall r :: r in pending && r.op.Write? ==> !Locked(r.op.file)
  }

  ghost predicate Sound(s: System) {
    EditorShowsDraft(s.pane) && LockedIsClean(s.pane) && WritesUnlocked(s.pending)
  }

  /** An editor that survives the render into `x` would still be right about it. */
  ghost predicate EditorFits(x: Pane) {
    x.editor.Some? ==>
      && x.editor.value.read <= x.read
      && (x.editor.value.read == x.read && ShownAsText(x.file) ==>
            x.editor.value.text == x.draft && (x.file.value.deleted ==> x.editor.value.readOnly))
  }

  lemma RenderKeepsEditor(before: Pane, x: Pane)
    requires EditorFits(x) && LockedIsClean(x)
    ensures EditorShowsDraft(Rendered(before, x).pane) && LockedIsClean(Rendered(before, x).pane)
  {
    hide OpenStage, BaseStage, RereadStage, AgainStage, BaseEffect, RereadEffect;
    hide IsDeleted, MonacoLanguage, CommittedPath;
    OpenStageFacts(before, x);
    BaseStageFacts(before, x, OpenStage(before, x));
    RereadStageFacts(before, x, BaseStage(before, x, OpenStage(before, x)));
    AgainStageFacts(x, Flushed(before, x));
    assert Rendered(before, x).pane == Mount(AgainStage(x, Flushed(before, x)).pane);
  }

  lemma AnswerKeepsEditor(p: Pane, origin: string, request: Request, reply: Reply)
    requires EditorShowsDraft(p) && LockedIsClean(p) && Fits(request, reply)
    requires request.Write? ==> !Locked(request.file)
    ensures EditorShowsDraft(Answered(p, origin, request, reply).pane)
    ensures LockedIsClean(Answered(p, origin, request, reply).pane)
  {
    match request
    case OpenRead(_, run) => RenderKeepsEditor(p, OpenAnswered(p, origin, run, reply));
    case ReRead(_, read, run) => RenderKeepsEditor(p, RereadAnswered(p, origin, read, run, reply));
    case CommittedRead(_, read, run) => RenderKeepsEditor(p, CommittedAnswered(p, read, run, reply));
    case Write(file, draft) => RenderKeepsEditor(p, WriteAnswered(p, file, draft, reply));
    case Bar(_) =>
  }

  lemma RendersIssueNoWrites(before: Pane, x: Pane)
    ensures forall request :: request in Rendered(before, x).issued ==> !request.Write?
  {
    RenderedIssues(before, x);
  }

  lemma StepKeepsSound(s: System, e: Event)
    requires Sound(s) && Enabled(s, e)
    ensures Sound(Step(s, e))
  {
    var p := s.pane;
    match e
    case Show(props) =>
      RenderKeepsEditor(p, p.(props := props));
      RendersIssueNoWrites(p, p.(props := props));
    case Type(text) =>
      var x := p.(draft := text, editor := Some(p.editor.value.(text := text)));
      RenderKeepsEditor(p, x);
      RendersIssueNoWrites(p, x);
    case Save =>
      var x := p.(saving := true, error := None);
      RenderKeepsEditor(p, x);
      RendersIssueNoWrites(p, x);
    case Ask(call) =>
    case Answer(k, reply) =>
      var request := s.pending[k].op;
      assert s.pending[k] in s.pending;
      AnswerKeepsEditor(p, s.pending[k].workbench, request, reply);
      AnswersIssueNoWrites(p, s.pending[k].workbench, request, reply);
      WithoutIsPart(s.pending, k);
  }

  lemma AnswersIssueNoWrites(p: Pane, origin: string, request: Request, reply: Reply)
    requires Fits(request, reply)
    ensures forall r :: r in Answered(p, origin, request, reply).issued ==> !r.Write?
  {
    match request
    case OpenRead(_, run) => RendersIssueNoWrites(p, OpenAnswered(p, origin, run, reply));
    case ReRead(_, read, run) => RendersIssueNoWrites(p, RereadAnswered(p, origin, read, run, reply));
    case CommittedRead(_, read, run) => RendersIssueNoWrites(p, CommittedAnswered(p, read, run, reply));
    case Write(file, draft) => RendersIssueNoWrites(p, WriteAnswered(p, file, draft, reply));
    case Bar(_) =>
  }

  lemma {:induction false} RunKeepsSound(s: System, run: seq<Event>)
    requires Sound(s) && Possible(s, run)
    ensures Sound(Final(s, run))
    decreases |run|
  {
    if run != [] {
      StepKeepsSound(s, run[0]);
      RunKeepsSound(Step(s, run[0]), run[1..]);
    }
  }

  lemma StartIsSound(props: Props)
    ensures Sound(Start(props))
  {
  }

  /** In every reachable state the text in the mounted editor is the draft a save would write. */
  lemma TheEditorShowsTheDraft(props: Props, run: seq<Event>)
    requires Possible(Start(props), run)
    ensures EditorShowsDraft(Final(Start(props), run).pane)
  {
    StartIsSound(props);
    RunKeepsSound(Start(props), run);
  }

  /** No run asks for a write of a binary, truncated or deleted file, and none has unsaved text. */
  lemma LockedFilesAreNeverWritten(props: Props, run: seq<Event>)
    requires Possible(Start(props), run)
    ensures var s := Final(Start(props), run);
            && (forall r :: r in s.pending && r.op.Write? ==>
                  !r.op.file.binary && !r.op.file.truncated && !r.op.file.deleted)
            && match s.pane.file
               case Some(f) => f.binary || f.truncated || f.deleted ==> s.pane.draft == f.text
               case None => true
  {
    StartIsSound(props);
    RunKeepsSound(Start(props), run);
  }

  /** The pane says that there is something to save exactly when the editor's own text is not the one on record. */
  lemma UnsavedIsWhatTheEditorSays(props: Props, run: seq<Event>)
    requires Possible(Start(props), run)
    ensures var p := Final(Start(props), run).pane;
            Dirty(p) <==> p.editor.Some? && p.file.Some? && p.editor.value.text != p.file.value.text
  {
    StartIsSound(props);
    RunKeepsSound(Start(props), run);
  }

  // --- unsaved text ---

  /** The events that neither move the selection nor bring the file it asked for. */
  predicate Staying(s: System, e: Event) {
    match e
    case Show(props) => OpenKey(props) == OpenKey(s.pane.props)
    case Answer(k, _) => k < |s.pending| && !Live(s.pane, s.pending[k].op)
    case _ => true
  }

  /** The answer the selection on screen is waiting for. */
  predicate Live(p: Pane, request: Request) {
    request.OpenRead? && request.run == p.openRun
  }

  /** One step replaces no unsaved text: not a re-read, not a save succeeding or failing, not a new status. */
  lemma UnsavedTextSurvivesAStep(s: System, e: Event)
    requires Enabled(s, e) && Staying(s, e) && !e.Type?
    requires s.pane.file.Some? && s.pane.draft != s.pane.file.value.text
    ensures Step(s, e).pane.file.Some? && Step(s, e).pane.draft == s.pane.draft
  {
    hide Rendered;
    var p := s.pane;
    match e
    case Show(props) => RenderedFrame(p, p.(props := props));
    case Type(_) =>
    case Save => RenderedFrame(p, p.(saving := true, error := None));
    case Ask(_) =>
    case Answer(k, reply) =>
      var origin := s.pending[k].workbench;
      match s.pending[k].op
      case OpenRead(_, run) => RenderedFrame(p, OpenAnswered(p, origin, run, reply));
      case ReRead(_, read, run) => RenderedFrame(p, RereadAnswered(p, origin, read, run, reply));
      case CommittedRead(_, read, run) => RenderedFrame(p, CommittedAnswered(p, read, run, reply));
      case Write(file, draft) => RenderedFrame(p, WriteAnswered(p, file, draft, reply));
      case Bar(_) =>
  }

  /** What was typed last, and whether it has been the text on record since: read from, or written to, the checkout. */
  datatype Ledger = Ledger(text: Text, safe: bool)

  predicate OnRecord(p: Pane, text: Text) {
    p.file.Some? && p.file.value.text == text
  }

  ghost function Watched(s: System, e: Event, l: Ledger): Ledger
    requires Enabled(s, e)
  {
    var text := if e.Type? then e.text else l.text;
    Ledger(text, (l.safe && !e.Type?) || OnRecord(Step(s, e).pane, text))
  }

  ghost function Ledgers(s: System, run: seq<Event>, l: Ledger): Ledger
    requires Possible(s, run)
    decreases |run|
  {
    if run == [] then l else Ledgers(Step(s, run[0]), run[1..], Watched(s, run[0], l))
  }

  ghost predicate StaysPut(s: System, run: seq<Event>)
    requires Possible(s, run)
    decreases |run|
  {
    run == [] || (Staying(s, run[0]) && StaysPut(Step(s, run[0]), run[1..]))
  }

  ghost predicate Kept(p: Pane, l: Ledger) {
    l.safe || (p.file.Some? && p.draft == l.text && p.draft != p.file.value.text)
  }

  lemma StepKeepsText(s: System, e: Event, l: Ledger)
    requires Enabled(s, e) && Staying(s, e) && Kept(s.pane, l)
    requires EditorShowsDraft(s.pane)
    ensures Kept(Step(s, e).pane, Watched(s, e, l))
  {
    hide Rendered;
    if e.Type? {
      var x := s.pane.(draft := e.text, editor := Some(s.pane.editor.value.(text := e.text)));
      RenderedFrame(s.pane, x);
    } else if !l.safe {
      UnsavedTextSurvivesAStep(s, e);
    }
  }

  /**
   Conservation of typed text. While one file stays selected, and through any number of
   saves, failures, version bumps, re-reads and statuses, the text typed last is either
   still the draft, or has meanwhile been the text the pane has on record for the file.
   */
  lemma {:induction false} TypedTextIsConserved(s: System, run: seq<Event>, l: Ledger)
    requires Sound(s) && Possible(s, run) && StaysPut(s, run) && Kept(s.pane, l)
    ensures Kept(Final(s, run).pane, Ledgers(s, run, l))
    decreases |run|
  {
    if run != [] {
      StepKeepsText(s, run[0], l);
      StepKeepsSound(s, run[0]);
      TypedTextIsConserved(Step(s, run[0]), run[1..], Watched(s, run[0], l));
    }
  }

  // --- stale answers ---

  /** Cancelled by a later run of its effect, or asked about a read that is no longer on screen. */
  predicate Stale(p: Pane, request: Request) {
    match request
    case OpenRead(_, run) => run != p.openRun
    case ReRead(_, read, run) => run != p.rereadRun || read != p.read || p.file.None?
    case CommittedRead(_, _, run) => run != p.baseRun
    case _ => false
  }

  lemma NothingToRender(p: Pane)
    requires EditorShowsDraft(p)
    ensures Rendered(p, p) == Turn(p, [])
  {
  }

  /** A render whose keys did not move only mounts the editor. */
  lemma OnlyMounts(p: Pane, x: Pane)
    requires x.props == p.props && x.read == p.read
    ensures Rendered(p, x) == Turn(Mount(x), [])
    ensures Mount(x) == x.(editor := Mount(x).editor)
  {
  }

  lemma TypeFacts(s: System, text: Text)
    requires CanType(s.pane)
    ensures var t := Step(s, Type(text));
            t.pending == s.pending && t.pane == s.pane.(draft := text, editor := t.pane.editor)
  {
    hide Mount, IsDeleted, CommittedPath, IsNew;
    var x := s.pane.(draft := text, editor := Some(s.pane.editor.value.(text := text)));
    OnlyMounts(s.pane, x);
  }

  lemma NewReadMountsAnew(before: Pane, x: Pane)
    requires EditorShowsDraft(before) && x.editor == before.editor && x.read > before.read
    requires x.props == before.props && ShownAsText(x.file)
    ensures var editor := Rendered(before, x).pane.editor;
            editor.Some? && editor.value.readOnly == x.file.value.deleted
  {
    hide MonacoLanguage, CommittedPath, IsNew, IsDeleted;
  }

  /** A stale answer changes nothing but the queue it leaves, whatever it says. */
  lemma StaleAnswersAreInert(s: System, k: nat, reply: Reply)
    requires Sound(s) && Enabled(s, Answer(k, reply)) && Stale(s.pane, s.pending[k].op)
    ensures Step(s, Answer(k, reply)) == System(s.pane, Without(s.pending, k))
  {
    NothingToRender(s.pane);
  }

  /** Every text that comes on screen without being typed is a new read, unless the save puts its file back. */
  lemma EveryReplacementIsANewRead(s: System, e: Event)
    requires Enabled(s, e)
    ensures var p, q := s.pane, Step(s, e).pane;
            && p.read <= q.read
            && (q.draft != p.draft && !e.Type? && q.file.Some? ==> p.read < q.read)
            && (q.file != p.file && q.file.Some? && !(e.Answer? && s.pending[e.k].op.Write?) ==> p.read < q.read)
  {
    hide Rendered;
    var p := s.pane;
    match e
    case Show(props) => RenderedFrame(p, p.(props := props));
    case Type(text) => RenderedFrame(p, p.(draft := text, editor := Some(p.editor.value.(text := text))));
    case Save => RenderedFrame(p, p.(saving := true, error := None));
    case Ask(_) =>
    case Answer(k, reply) =>
      var origin := s.pending[k].workbench;
      match s.pending[k].op
      case OpenRead(_, run) => RenderedFrame(p, OpenAnswered(p, origin, run, reply));
      case ReRead(_, read, run) => RenderedFrame(p, RereadAnswered(p, origin, read, run, reply));
      case CommittedRead(_, read, run) => RenderedFrame(p, CommittedAnswered(p, read, run, reply));
      case Write(file, draft) => RenderedFrame(p, WriteAnswered(p, file, draft, reply));
      case Bar(_) =>
  }
}
