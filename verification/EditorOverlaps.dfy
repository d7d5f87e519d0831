/** The runs, from the first render on, in which a save and a selection overlap and harm is done. */
module EditorOverlaps {
  import opened CodePane
  import opened EditorMoves
  import opened EditorSafety
  import opened EditorSelection
  import opened Fifo
  import opened Wrappers

  ghost predicate Runs(s: System, run: seq<Event>, t: System) {
    Possible(s, run) && Final(s, run) == t
  }

  lemma {:induction false} RunsOn(s: System, run: seq<Event>, t: System, e: Event)
    requires Runs(s, run, t) && Enabled(t, e)
    ensures Runs(s, run + [e], Step(t, e))
    decreases |run|
  {
    hide Enabled, Step;
    var longer := run + [e];
    if run == [] {
      assert longer[0] == e && longer[1..] == [];
      RunsItself(Step(t, e));
    } else {
      assert longer[0] == run[0] && longer[1..] == run[1..] + [e];
      RunsOn(Step(s, run[0]), run[1..], t, e);
    }
  }

  // --- the steps the runs are made of ---

  /** A file the status does not list, of plain text. */
  predicate Plainly(props: Props, loaded: Loaded) {
    props.selected != "" && ChangeOf(props).None? &&
    loaded.path == props.selected && !loaded.binary && !loaded.truncated
  }

  lemma StartsByAsking(props: Props)
    requires props.selected != "" && ChangeOf(props).None?
    ensures var s := Start(props);
            s.pending == [Pending(props.workbench, OpenRead(props.selected, s.pane.openRun))] && s.pane.props == props
  {
  }

  lemma Arrives(s: System, k: nat, loaded: Loaded)
    requires Sound(s) && MayAnswer(s.pending, k) && Live(s.pane, s.pending[k].op)
    requires Plainly(s.pane.props, loaded) && s.pending[k].op.path == loaded.path
    ensures Enabled(s, Answer(k, Content(loaded)))
    ensures var t := Step(s, Answer(k, Content(loaded)));
            && Sound(t) && t.pending == Without(s.pending, k) && CanType(t.pane)
            && t.pane.file == Some(Fresh(loaded, s.pending[k].workbench)) && t.pane.draft == loaded.text
            && t.pane.props == s.pane.props && t.pane.openRun == s.pane.openRun && t.pane.read == s.pane.read + 1
  {
    hide Rendered, IsDeleted;
    var p := s.pane;
    var x := OpenAnswered(p, s.pending[k].workbench, s.pending[k].op.run, Content(loaded));
    StepKeepsSound(s, Answer(k, Content(loaded)));
    RenderedFrame(p, x);
    RenderedIssues(p, x);
    NewReadMountsAnew(p, x);
    NonEmptyHoldsOne(Rendered(p, x).issued);
    assert Without(s.pending, k) + Sent(p.props.workbench, []) == Without(s.pending, k);
  }

  /** A selection that the status does not list asks for the file, and for nothing else. */
  lemma Selects(s: System, next: Props)
    requires Sound(s) && OpenKey(next) != OpenKey(s.pane.props) && next.version == s.pane.props.version
    requires next.selected != "" && ChangeOf(next).None?
    ensures var t := Step(s, Show(next));
            && Sound(t)
            && t.pending == s.pending + [Pending(next.workbench, OpenRead(next.selected, s.pane.openRun + 1))]
            && t.pane.props == next && t.pane.openRun == s.pane.openRun + 1
            && t.pane.file == s.pane.file && t.pane.draft == s.pane.draft
  {
    hide Mount, MonacoLanguage;
    var x := s.pane.(props := next);
    assert CommittedPath(next).None? && !IsDeleted(next);
    assert Rendered(s.pane, x).issued == [OpenRead(next.selected, x.openRun + 1)];
    RenderedFrame(s.pane, x);
    StepKeepsSound(s, Show(next));
    assert Sent(next.workbench, Rendered(s.pane, x).issued) ==
      [Pending(next.workbench, OpenRead(next.selected, s.pane.openRun + 1))];
  }

  // --- one file, edited and being saved ---

  function EditAndSave(loaded: Loaded, text: Text): seq<Event> { [Answer(0, Content(loaded)), Type(text), Save] }

  lemma EditedAndSaved(props: Props, loaded: Loaded, text: Text) returns (s: System)
    requires Plainly(props, loaded)
    ensures Runs(Start(props), EditAndSave(loaded, text), s) && Sound(s)
    ensures var file := Fresh(loaded, props.workbench);
            && s.pending == [Pending(props.workbench, Write(file, text))]
            && s.pane.file == Some(file) && s.pane.draft == text && s.pane.props == props
  {
    hide Step, Rendered, CanType, CanSave, Start, Sound, Runs;
    var s0 := Start(props);
    StartIsSound(props);
    StartsByAsking(props);
    Arrives(s0, 0, loaded);
    var s1 := Step(s0, Answer(0, Content(loaded)));
    assert s1.pending == [];
    TypeFacts(s1, text);
    StepKeepsSound(s1, Type(text));
    var s2 := Step(s1, Type(text));
    WouldWrite(s2);
    SaveFactsInFull(s2);
    StepKeepsSound(s2, Save);
    s := Step(s2, Save);
    RunsItself(s0);
    RunsOn(s0, [], s0, Answer(0, Content(loaded)));
    RunsOn(s0, [] + [Answer(0, Content(loaded))], s1, Type(text));
    RunsOn(s0, [] + [Answer(0, Content(loaded))] + [Type(text)], s2, Save);
    assert [] + [Answer(0, Content(loaded))] + [Type(text)] + [Save] == EditAndSave(loaded, text);
  }

  lemma RunsItself(s: System)
    ensures Runs(s, [], s)
  {
  }

  /** What the next save sends, and where. */
  predicate NextSaveWrites(t: System, workbench: string, file: OpenFile, text: Text) {
    CanSave(t.pane) && t.pane.props.workbench == workbench && Write(file, text) in Saved(t.pane).issued
  }

  lemma NextSave(t: System)
    requires Sound(t) && t.pane.file.Some? && !Locked(t.pane.file.value)
    ensures NextSaveWrites(t, t.pane.props.workbench, t.pane.file.value, t.pane.draft)
  {
    WouldWrite(t);
  }

  // --- to another workbench ---

  /**
   A file is being saved when the developer goes to another workbench, and that one answers first.
   The save then puts its file back on screen, over the other checkout's text, and the next save
   writes that text into the other checkout under the first one's path.
   */
  lemma ASaveFollowsIntoAnotherWorkbench(props: Props, loaded: Loaded, text: Text, there: Props, other: Loaded)
    returns (t: System)
    requires Plainly(props, loaded) && Plainly(there, other)
    requires there.workbench != props.workbench && there.version == props.version
    ensures Runs(Start(props),
      EditAndSave(loaded, text) + [Show(there)] + [Answer(1, Content(other))] + [Answer(0, Done)], t)
    ensures var file := Fresh(loaded, props.workbench).(text := text);
            && t.pending == [] && t.pane.props == there && t.pane.file == Some(file) && t.pane.draft == other.text
            && !Right(t.pane) && NextSaveWrites(t, there.workbench, file, other.text)
  {
    hide Step, Sound, CanType, CanSave, Start, Runs, NextSaveWrites, Rendered, IsDeleted;
    var run := EditAndSave(loaded, text);
    var s := EditedAndSaved(props, loaded, text);
    Selects(s, there);
    var s1 := Step(s, Show(there));
    RunsOn(Start(props), run, s, Show(there));
    assert s1.pending[1] == Pending(there.workbench, OpenRead(there.selected, s1.pane.openRun));
    Arrives(s1, 1, other);
    var s2 := Step(s1, Answer(1, Content(other)));
    RunsOn(Start(props), run + [Show(there)], s1, Answer(1, Content(other)));
    assert s2.pending == [s.pending[0]];
    DoneIsEnabled(s2, 0);
    PutBackFacts(s2, 0);
    StepKeepsSound(s2, Answer(0, Done));
    RunsOn(Start(props), run + [Show(there)] + [Answer(1, Content(other))], s2, Answer(0, Done));
    t := Step(s2, Answer(0, Done));
    assert Without(s2.pending, 0) == [];
    NextSave(t);
  }

  // --- to a file that turns out deleted ---

  /**
   A file is being saved when a status calls it deleted, and then the save succeeds. The file is back
   over an empty draft, and the next save would write that emptiness over what the first one wrote.
   The editor of the deleted file stays, read-only, exactly if it was of the same language.
   */
  lemma ADeletionDuringASave(props: Props, loaded: Loaded, text: Text, gone: Props) returns (t: System)
    requires Plainly(props, loaded) && text != ""
    requires gone.selected == props.selected && gone.workbench == props.workbench && IsDeleted(gone)
    ensures Runs(Start(props), EditAndSave(loaded, text) + [Show(gone)] + [Answer(0, Done)], t)
    ensures var file := Fresh(loaded, props.workbench).(text := text);
            && t.pane.props == gone && t.pane.file == Some(file) && t.pane.draft == ""
            && !Loading(t) && !Right(t.pane) && NextSaveWrites(t, props.workbench, file, "")
            && (CanType(t.pane) <==> MonacoLanguage(loaded.language, loaded.path) != MonacoLanguage(None, loaded.path))
  {
    hide Step, Sound, CanSave, CanType, Start, Runs, NextSaveWrites, Rendered, IsDeleted, MonacoLanguage;
    var run := EditAndSave(loaded, text);
    var s := EditedAndSaved(props, loaded, text);
    assert OpenKey(gone) != OpenKey(props) by { NotDeleted(props); }
    ShownDeleted(s, gone);
    StepKeepsSound(s, Show(gone));
    var s1 := Step(s, Show(gone));
    RunsOn(Start(props), run, s, Show(gone));
    DoneIsEnabled(s1, 0);
    PutBackFacts(s1, 0);
    PutBackEditor(s1, 0);
    StepKeepsSound(s1, Answer(0, Done));
    RunsOn(Start(props), run + [Show(gone)], s1, Answer(0, Done));
    t := Step(s1, Answer(0, Done));
    WithoutIsPart(s1.pending, 0);
    NextSave(t);
  }

  lemma NotDeleted(props: Props)
    requires ChangeOf(props).None?
    ensures !IsDeleted(props)
  {
  }

  lemma ShownDeleted(s: System, gone: Props)
    requires |s.pending| == 1 && s.pending[0].op.Write? && OpenKey(gone) != OpenKey(s.pane.props)
    requires gone.selected != "" && IsDeleted(gone)
    ensures var t := Step(s, Show(gone));
            && |t.pending| >= 1 && t.pending[0] == s.pending[0] && (forall r :: r in t.pending ==> !Live(t.pane, r.op))
            && t.pane.props == gone && t.pane.draft == ""
            && t.pane.file == Some(OpenFile(gone.selected, "", false, false, true, None, gone.workbench))
  {
    hide Rendered, IsDeleted;
    var x := s.pane.(props := gone);
    RenderedFrame(s.pane, x);
    RenderedIssues(s.pane, x);
    QueuedAfter(Rendered(s.pane, x), s.pending);
  }

  /** The editor is left alone if read, path and language are the same, and is read-only if it was. */
  lemma PutBackEditor(s: System, k: nat)
    requires Sound(s) && Enabled(s, Answer(k, Done)) && s.pending[k].op.Write? && !Locked(s.pending[k].op.file)
    requires s.pane.file.Some? && s.pane.file.value.deleted && ShownAsText(s.pane.file)
    requires s.pane.file.value.path == s.pending[k].op.file.path
    ensures var f, g := s.pane.file.value, s.pending[k].op.file;
            CanType(Step(s, Answer(k, Done)).pane) <==>
            MonacoLanguage(g.language, g.path) != MonacoLanguage(f.language, f.path)
  {
    hide Rendered, IsDeleted, MonacoLanguage;
    OnlyMounts(s.pane, WriteAnswered(s.pane, s.pending[k].op.file, s.pending[k].op.draft, Done));
  }

  // --- saving while another file loads ---

  /**
   A second file is selected, and the first one, still on screen, is saved before the answer comes.
   The queue puts the first file back after the second, over the second one's text, and the next save
   writes that text into the first file.
   */
  lemma ASaveWhileAnotherFileLoads(props: Props, loaded: Loaded, next: Props, other: Loaded) returns (t: System)
    requires Plainly(props, loaded) && Plainly(next, other)
    requires next.workbench == props.workbench && next.selected != props.selected && next.version == props.version
    ensures Runs(Start(props),
      [Answer(0, Content(loaded))] + [Show(next)] + [Save] + [Answer(0, Content(other))] + [Answer(0, Done)], t)
    ensures var file := Fresh(loaded, props.workbench);
            && t.pending == [] && t.pane.props == next && t.pane.file == Some(file) && t.pane.draft == other.text
            && !Right(t.pane) && NextSaveWrites(t, props.workbench, file, other.text)
  {
    hide Step, Sound, CanType, CanSave, Start, Runs, NextSaveWrites, Rendered, IsDeleted;
    var s0 := Start(props);
    StartIsSound(props);
    StartsByAsking(props);
    Arrives(s0, 0, loaded);
    var s1 := Step(s0, Answer(0, Content(loaded)));
    assert s1.pending == [];
    Selects(s1, next);
    var s2 := Step(s1, Show(next));
    WouldWrite(s2);
    SaveFactsInFull(s2);
    StepKeepsSound(s2, Save);
    var s3 := Step(s2, Save);
    assert s3.pending[0] == Pending(next.workbench, OpenRead(next.selected, s3.pane.openRun));
    Arrives(s3, 0, other);
    var s4 := Step(s3, Answer(0, Content(other)));
    assert s4.pending == [s3.pending[1]];
    DoneIsEnabled(s4, 0);
    PutBackFacts(s4, 0);
    StepKeepsSound(s4, Answer(0, Done));
    t := Step(s4, Answer(0, Done));
    assert Without(s4.pending, 0) == [];
    NextSave(t);
    var run := [Answer(0, Content(loaded))];
    RunsItself(s0);
    RunsOn(s0, [], s0, Answer(0, Content(loaded)));
    assert [] + run == run;
    RunsOn(s0, run, s1, Show(next));
    RunsOn(s0, run + [Show(next)], s2, Save);
    RunsOn(s0, run + [Show(next)] + [Save], s3, Answer(0, Content(other)));
    RunsOn(s0, run + [Show(next)] + [Save] + [Answer(0, Content(other))], s4, Answer(0, Done));
  }
}
