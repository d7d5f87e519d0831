/** A text with a NUL: it is saved as text, and read back as a binary file. */
module EditorNul {
  import opened Checkout
  import opened CodePane
  import opened EditorBase
  import opened EditorBaseSteps
  import opened EditorIdle
  import opened EditorMirror
  import opened EditorMoves
  import opened EditorRuns
  import opened EditorSafety
  import opened EditorSelection
  import opened EditorSilence
  import opened Fifo
  import opened Wrappers

  // --- runs ---

  ghost predicate Goes(b: Backend, w: World, run: seq<Happening>, v: World) {
    CanRun(b, w, run) && Afterwards(b, w, run) == v
  }

  lemma GoesNowhere(b: Backend, w: World)
    ensures Goes(b, w, [], w)
  {
  }

  lemma {:induction false} GoesOn(b: Backend, w: World, run: seq<Happening>, v: World, h: Happening)
    requires Goes(b, w, run, v) && CanHappen(b, v, h)
    ensures Goes(b, w, run + [h], Happens(b, v, h))
    decreases |run|
  {
    hide CanHappen, Happens;
    var longer := run + [h];
    if run == [] {
      assert longer[0] == h && longer[1..] == [];
      GoesNowhere(b, Happens(b, v, h));
    } else {
      assert longer[0] == run[0] && longer[1..] == run[1..] + [h];
      GoesOn(b, Happens(b, w, run[0]), run[1..], v, h);
    }
  }

  /** A plain run that ends here. */
  ghost predicate PlainlyGoes(b: Backend, w: World, run: seq<Happening>, v: World) {
    Goes(b, w, run, v) && PlainRun(b, w, run)
  }

  /** Whatever plain run follows: a re-read leaves the pane alone. */
  ghost predicate RereadsStayInert(b: Backend, w: World) {
    forall run, v :: PlainlyGoes(b, w, run, v) && |v.sys.pending| > 0 && v.sys.pending[0].op.ReRead? ==>
      AnsweredPane(b, v).pane == v.sys.pane
  }

  // --- a save and its answer ---

  lemma SavedAlone(b: Backend, w: World)
    requires Sound(w.sys) && w.sys.pending == [] && CanBeSaved(w.sys.pane)
    ensures CanHappen(b, w, Saving)
    ensures var v, p := Happens(b, w, Saving), w.sys.pane;
            && v == w.(sys := v.sys) && Sound(v.sys)
            && v.sys.pane == p.(saving := true, error := None, editor := v.sys.pane.editor)
            && v.sys.pending == [Pending(p.props.workbench, Write(p.file.value, p.draft))]
  {
    hide Step, Mount, IsDeleted, CommittedPath, IsNew;
    SaveFactsInFull(w.sys);
    StepKeepsSound(w.sys, Save);
  }

  lemma SaveAnswered(b: Backend, w: World, status: Status, id: string)
    requires Sound(w.sys) && |w.sys.pending| == 1 && w.sys.pending[0].op.Write?
    requires |w.sys.pending[0].op.draft| <= b.limit
    ensures CanHappen(b, w, Answering(status, id))
    ensures var v, r, p := Happens(b, w, Answering(status, id)), w.sys.pending[0].op, w.sys.pane;
            && v == w.(sys := v.sys, wc := w.wc[r.file.path := Blob(r.draft, true)], reloads := w.reloads + 1)
            && Sound(v.sys) && v.sys.pending == []
            && v.sys.pane == p.(file := Some(r.file.(text := r.draft)), overtaken := None, saving := false,
                                editor := v.sys.pane.editor)
  {
    hide Step, Mount, IsDeleted, CommittedPath, IsNew, AnsweredPane;
    WriteFacts(b, w);
    AnsweredIsAStep(b, w);
    StepKeepsSound(w.sys, Answer(0, ReplyOf(b, w, w.sys.pending[0].op)));
    assert Without(w.sys.pending, 0) == [];
  }

  /** What the save leaves behind: the text on record and in the working copy, and an idle pane. */
  ghost predicate JustSaved(v: World, text: Text) {
    var p := v.sys.pane;
    Sound(v.sys) && v.sys.pending == [] && p.file.Some? && !p.file.value.deleted &&
    p.draft == text && p.file.value.text == text &&
    p.file.value.path in v.wc && v.wc[p.file.value.path] == Blob(text, true)
  }

  lemma SavedAndAnswered(b: Backend, w: World, status: Status, id: string)
    requires Sound(w.sys) && w.sys.pending == [] && CanBeSaved(w.sys.pane) && |w.sys.pane.draft| <= b.limit
    ensures CanHappen(b, w, Saving) && CanHappen(b, Happens(b, w, Saving), Answering(status, id))
    ensures JustSaved(Happens(b, Happens(b, w, Saving), Answering(status, id)), w.sys.pane.draft)
  {
    hide Happens, CanHappen, Sound;
    SavedAlone(b, w);
    SaveAnswered(b, Happens(b, w, Saving), status, id);
  }

  // --- the bump after it ---

  lemma NulIsBinary(b: Backend, path: Path, text: Text)
    requires |text| <= b.limit && !ReadsBack(text)
    ensures text != "" && Serve(b, path, Blob(text, true)) == Loaded(path, "", true, false, b.languageOf(path))
  {
  }

  /** The first version bump after it asks for the file, and the answer takes the editor away. */
  lemma BumpedAfterNul(b: Backend, w: World, text: Text)
    requires JustSaved(w, text) && |text| <= b.limit && !ReadsBack(text)
    ensures CanHappen(b, w, Bumping)
    ensures var v := Happens(b, w, Bumping);
            && v == w.(sys := v.sys) && |v.sys.pending| == 1 && v.sys.pending[0].op.ReRead?
            && AnsweredPane(b, v).pane.file.Some? && AnsweredPane(b, v).pane.file.value.binary
            && AnsweredPane(b, v).pane.editor.None? && AnsweredPane(b, v).pane.draft == ""
            && AnsweredPane(b, v).pane.read > v.sys.pane.read
  {
    hide Rendered, Serve, IsDeleted, Happens, CanHappen;
    BumpedUnderSilence(b, w);
    var v := Happens(b, w, Bumping);
    NulIsBinary(b, w.sys.pane.file.value.path, text);
    var p, r := v.sys.pane, v.sys.pending[0];
    TheAnswerFits(b, v);
    var x := RereadAnswered(p, r.workbench, r.op.read, r.op.run, ReplyOf(b, v, r.op));
    RenderedFrame(p, x);
    AnsweredIsAStep(b, v);
    StepKeepsSound(v.sys, Answer(0, ReplyOf(b, v, r.op)));
  }

  // --- exactly ---

  lemma PlainlyGoneIsInStep(b: Backend, start: World, before: seq<Happening>, w: World) returns (subject: Path)
    requires Opening(b, start) && PlainlyGoes(b, start, before, w)
    ensures InStep(b, w, subject)
  {
    OpeningIsInStep(b, start);
    subject := RunKeepsInStep(b, start, before, start.sys.pane.props.selected);
  }

  lemma InStepStaysInert(b: Backend, w: World, subject: Path)
    requires InStep(b, w, subject)
    ensures RereadsStayInert(b, w)
  {
    hide InStep, AnsweredPane;
    forall run, v | PlainlyGoes(b, w, run, v) && |v.sys.pending| > 0 && v.sys.pending[0].op.ReRead?
      ensures AnsweredPane(b, v).pane == v.sys.pane
    {
      var subject' := RunKeepsInStep(b, w, run, subject);
      RereadFindsTheRecord(b, v, subject');
    }
  }

  lemma PlainSave(b: Backend, w: World, status: Status, id: string, subject: Path) returns (subject': Path)
    requires InStep(b, w, subject) && w.sys.pending == [] && CanBeSaved(w.sys.pane)
    requires |w.sys.pane.draft| <= b.limit && ReadsBack(w.sys.pane.draft)
    ensures CanHappen(b, w, Saving) && CanHappen(b, Happens(b, w, Saving), Answering(status, id))
    ensures InStep(b, Happens(b, Happens(b, w, Saving), Answering(status, id)), subject')
  {
    hide Happens, CanHappen, Sound, Selected;
    SavedAlone(b, w);
    SaveAnswered(b, Happens(b, w, Saving), status, id);
    subject' := HappeningKeepsInStep(b, w, Saving, subject);
    subject' := HappeningKeepsInStep(b, Happens(b, w, Saving), Answering(status, id), subject');
  }

  lemma OneBumpAfterNul(b: Backend, w: World, text: Text)
    requires JustSaved(w, text) && |text| <= b.limit && !ReadsBack(text)
    ensures !RereadsStayInert(b, w)
  {
    hide JustSaved, Happens, CanHappen;
    BumpedAfterNul(b, w, text);
    var v := Happens(b, w, Bumping);
    GoesNowhere(b, w);
    GoesOn(b, w, [], w, Bumping);
    assert [] + [Bumping] == [Bumping];
    assert PlainRun(b, w, [Bumping]) by { BumpingIsPlain(b, w); }
    assert PlainlyGoes(b, w, [Bumping], v);
  }

  lemma BumpingIsPlain(b: Backend, w: World)
    requires CanRun(b, w, [Bumping])
    ensures PlainRun(b, w, [Bumping])
  {
    hide Happens, CanHappen;
    assert [Bumping][1..] == [];
  }

  /**
   From every state a plain run leads to, with nothing in the queue: a save within the limit, once
   answered, is followed only by re-reads that leave the pane alone if and only if its text holds no NUL.
   */
  lemma ASaveReadsBackExactly(b: Backend, start: World, before: seq<Happening>, w: World, status: Status, id: string)
    requires Opening(b, start) && PlainlyGoes(b, start, before, w)
    requires w.sys.pending == [] && CanBeSaved(w.sys.pane) && |w.sys.pane.draft| <= b.limit
    ensures CanHappen(b, w, Saving) && CanHappen(b, Happens(b, w, Saving), Answering(status, id))
    ensures RereadsStayInert(b, Happens(b, Happens(b, w, Saving), Answering(status, id))) <==>
      ReadsBack(w.sys.pane.draft)
  {
    hide Happens, CanHappen, Opening, PlainlyGoes, RereadsStayInert, CanBeSaved, ReadsBack, JustSaved;
    var subject := PlainlyGoneIsInStep(b, start, before, w);
    assert Sound(w.sys);
    SavedAndAnswered(b, w, status, id);
    var v := Happens(b, Happens(b, w, Saving), Answering(status, id));
    if ReadsBack(w.sys.pane.draft) {
      var subject' := PlainSave(b, w, status, id, subject);
      InStepStaysInert(b, v, subject');
    } else {
      OneBumpAfterNul(b, v, w.sys.pane.draft);
    }
  }

  // --- from the opening ---

  const SAVE_AND_BUMP: seq<Happening> := [Saving, ANSWER, Bumping, ANSWER]

  /** The text is in the working copy, and the editor it was typed into is gone. */
  ghost predicate EditorIsGone(v: World, path: Path, text: Text) {
    var p := v.sys.pane;
    path in v.wc && v.wc[path] == Blob(text, true) &&
    p.file.Some? && p.file.value.binary && p.editor.None? && p.draft == ""
  }

  lemma SavedAndBumped(b: Backend, w: World, path: Path, text: Text) returns (v: World)
    requires Sound(w.sys) && w.sys.pending == [] && CanBeSaved(w.sys.pane)
    requires w.sys.pane.file.value.path == path && w.sys.pane.draft == text
    requires |text| <= b.limit && !ReadsBack(text)
    ensures Goes(b, w, SAVE_AND_BUMP, v) && EditorIsGone(v, path, text)
  {
    hide Happens, CanHappen, Goes, ReadsBack, JustSaved, Sound, CanBeSaved;
    SavedAndAnswered(b, w, Status([], None), "");
    SavedPath(b, w);
    var w1 := Happens(b, w, Saving);
    var w2 := Happens(b, w1, ANSWER);
    BumpedAfterNul(b, w2, text);
    var w3 := Happens(b, w2, Bumping);
    RereadHappens(b, w3);
    v := Happens(b, w3, ANSWER);
    GoesNowhere(b, w);
    GoesOn(b, w, [], w, Saving);
    GoesOn(b, w, [] + [Saving], w1, ANSWER);
    GoesOn(b, w, [] + [Saving] + [ANSWER], w2, Bumping);
    GoesOn(b, w, [] + [Saving] + [ANSWER] + [Bumping], w3, ANSWER);
    assert [] + [Saving] + [ANSWER] + [Bumping] + [ANSWER] == SAVE_AND_BUMP;
  }

  lemma {:induction false} GoesThrough(
    b: Backend, w: World, run: seq<Happening>, v: World, more: seq<Happening>, end: World)
    requires Goes(b, w, run, v) && Goes(b, v, more, end)
    ensures Goes(b, w, run + more, end)
    decreases |run|
  {
    hide CanHappen, Happens;
    if run == [] {
      assert run + more == more;
    } else {
      assert (run + more)[0] == run[0] && (run + more)[1..] == run[1..] + more;
      GoesThrough(b, Happens(b, w, run[0]), run[1..], v, more, end);
    }
  }

  /** From the opening: the selected file is opened, the text typed and saved, and the version moves. */
  lemma ANulTakesTheEditorAway(b: Backend, start: World, path: Path, text: Text) returns (v: World)
    requires Opening(b, start) && start.sys.pane.props.selected == path != "" && ChangeOf(start.sys.pane.props).None?
    requires path in start.wc && Editable(b, start.wc[path]) && |text| <= b.limit && !ReadsBack(text)
    ensures Goes(b, start, [ANSWER, Typing(text)] + SAVE_AND_BUMP, v) && EditorIsGone(v, path, text)
  {
    hide Happens, CanHappen, Goes, Opening, Editable, Unlisted, ReadsBack, Start, ChangeOf, EditorIsGone;
    assert OpenedOn(start) by { OpeningAsks(b, start); }
    StartIsSound(start.sys.pane.props);
    OpenedUnderSilence(b, start, Status([], None));
    var w1 := Happens(b, start, ANSWER);
    IsUnlisted(w1, path);
    TypedUnlisted(b, w1, path, text);
    var w2 := Happens(b, w1, Typing(text));
    UnlistedFacts(w2, path);
    UnlistedCanBeSaved(w2, path);
    GoesNowhere(b, start);
    GoesOn(b, start, [], start, ANSWER);
    GoesOn(b, start, [] + [ANSWER], w1, Typing(text));
    assert [] + [ANSWER] + [Typing(text)] == [ANSWER, Typing(text)];
    v := SavedAndBumped(b, w2, path, text);
    GoesThrough(b, start, [ANSWER, Typing(text)], w2, SAVE_AND_BUMP, v);
  }

  lemma UnlistedCanBeSaved(w: World, path: Path)
    requires Unlisted(w, path) && CanSave(w.sys.pane)
    ensures CanBeSaved(w.sys.pane)
  {
  }

  lemma SavedPath(b: Backend, w: World)
    requires Sound(w.sys) && w.sys.pending == [] && CanBeSaved(w.sys.pane) && |w.sys.pane.draft| <= b.limit
    ensures CanHappen(b, w, Saving) && CanHappen(b, Happens(b, w, Saving), ANSWER)
    ensures var v := Happens(b, Happens(b, w, Saving), ANSWER);
      v.wc == w.wc[w.sys.pane.file.value.path := Blob(w.sys.pane.draft, true)]
  {
    hide Happens, CanHappen, Sound;
    SavedAlone(b, w);
    SaveAnswered(b, Happens(b, w, Saving), Status([], None), "");
  }

  lemma RereadHappens(b: Backend, w: World)
    requires |w.sys.pending| > 0 && w.sys.pending[0].op.ReRead?
    ensures CanHappen(b, w, ANSWER)
    ensures var v := Happens(b, w, ANSWER); v.sys == AnsweredPane(b, w) && v.wc == w.wc
  {
  }
}
