/** Orderly runs put together, and the opening of a file the status does not list. */
module EditorRuns {
  import opened Checkout
  import opened CodePane
  import opened EditorBase
  import opened EditorBaseSteps
  import opened EditorDiff
  import opened EditorMirror
  import opened EditorSafety
  import opened EditorSelection
  import opened EditorTold
  import opened Fifo
  import opened Wrappers

  // --- runs, put together ---

  /** An orderly run that ends here. */
  ghost predicate Leads(b: Backend, w: World, run: seq<Happening>, v: World) {
    CanRun(b, w, run) && OrderlyRun(b, w, run) && Afterwards(b, w, run) == v
  }

  lemma LeadsNowhere(b: Backend, w: World)
    ensures Leads(b, w, [], w)
  {
  }

  lemma {:induction false} LeadsThrough(
    b: Backend, w: World, run: seq<Happening>, v: World, more: seq<Happening>, end: World)
    requires Leads(b, w, run, v) && Leads(b, v, more, end)
    ensures Leads(b, w, run + more, end)
    decreases |run|
  {
    hide CanHappen, Happens, Orderly;
    if run == [] {
      assert run + more == more;
    } else {
      assert (run + more)[1..] == run[1..] + more;
      LeadsThrough(b, Happens(b, w, run[0]), run[1..], v, more, end);
    }
  }

  lemma LeadsOn(b: Backend, w: World, run: seq<Happening>, v: World, h: Happening)
    requires Leads(b, w, run, v) && CanHappen(b, v, h) && Orderly(b, v, h)
    requires Happens(b, v, h).sys.pane.overtaken.None?
    ensures Leads(b, w, run + [h], Happens(b, v, h))
  {
    hide CanHappen, Happens, Orderly;
    LeadsNowhere(b, Happens(b, v, h));
    assert [h][0] == h && [h][1..] == [];
    assert CanRun(b, v, [h]) && OrderlyRun(b, v, [h]);
    LeadsThrough(b, w, run, v, [h], Happens(b, v, h));
  }

  // --- a file the status does not list ---

  /** Text a save can bring into the working copy, and the editor shows whole. */
  predicate Editable(b: Backend, blob: Blob) { blob.decodes && |blob.text| <= b.limit && ReadsBack(blob.text) }

  lemma EditableIsShown(b: Backend, path: Path, blob: Blob)
    requires Editable(b, blob)
    ensures Serve(b, path, blob) == Loaded(path, blob.text, false, false, b.languageOf(path))
  {
  }

  /** Selecting it asks for it, and for nothing of HEAD's. */
  lemma SelectedUnderSilence(b: Backend, w: World, path: Path)
    requires path != "" && path != w.sys.pane.props.selected
    requires Find(w.sys.pane.props.status.changes, path).None?
    ensures CanHappen(b, w, Selecting(path))
    ensures var u, p := Happens(b, w, Selecting(path)), w.sys.pane;
            && u == w.(sys := u.sys, taken := u.taken)
            && u.sys.pending == w.sys.pending + [Pending(p.props.workbench, OpenRead(path, p.openRun + 1))]
            && u.sys.pane.props == p.props.(selected := path) && u.sys.pane.openRun == p.openRun + 1
            && u.sys.pane.read == p.read && u.sys.pane.rereadRun == p.rereadRun
            && u.sys.pane.overtaken == p.overtaken
  {
    hide Mount, MonacoLanguage;
    var props := w.sys.pane.props.(selected := path);
    var x := w.sys.pane.(props := props);
    assert CommittedPath(props).None? && !IsDeleted(props);
    assert Rendered(w.sys.pane, x).issued == [OpenRead(path, x.openRun + 1)];
    RenderedFrame(w.sys.pane, x);
    RenderedReread(w.sys.pane, x);
  }

  /** Its answer brings it on screen, over a base of its own text. */
  lemma OpenedUnderSilence(b: Backend, w: World, status: Status)
    requires Sound(w.sys) && |w.sys.pending| > 0 && Live(w.sys.pane, w.sys.pending[0].op)
    requires var path := w.sys.pane.props.selected;
             w.sys.pending[0].op.path == path && ChangeOf(w.sys.pane.props).None? &&
             path in w.wc && Editable(b, w.wc[path])
    ensures CanHappen(b, w, Answering(status, ""))
    ensures var u, path := Happens(b, w, Answering(status, "")), w.sys.pane.props.selected;
            var q, text := u.sys.pane, w.wc[path].text;
            && u == w.(sys := u.sys, taken := text) && Sound(u.sys)
            && u.sys.pending == Without(w.sys.pending, 0)
            && q.props == w.sys.pane.props && q.read == w.sys.pane.read + 1 && q.overtaken == w.sys.pane.overtaken
            && q.file.Some? && q.file.value.path == path && !Locked(q.file.value)
            && q.file.value.text == text && q.draft == text && CanType(q)
            && q.committed == Some(Committed(q.read, Held(text)))
  {
    hide Serve, Rendered, OpenEffect, IsDeleted;
    TheAnswerFits(b, w);
    var p, r := w.sys.pane, w.sys.pending[0];
    EditableIsShown(b, r.op.path, w.wc[r.op.path]);
    var rest := Without(w.sys.pending, 0);
    var x := OpenAnswered(p, r.workbench, r.op.run, ReplyOf(b, w, r.op));
    RenderFacts(p, x, rest);
    StepKeepsSound(w.sys, Answer(0, ReplyOf(b, w, r.op)));
    assert Rederived(x, AnsweredPane(b, w));
    NewReadMountsAnew(p, x);
    RenderedIssues(p, x);
    NonEmptyHoldsOne(Rendered(p, x).issued);
    assert rest + Sent(p.props.workbench, []) == rest;
  }

  // --- the file git overlooks ---

  /** The checkout of a deployment's secrets: one ignored file that HEAD lacks, and nothing selected yet. */
  function Secrets(text: Text): World {
    var props := Props("", "operator", Status([], Some("c0")), 0);
    World(Start(props), map[".env" := Blob(text, true)], map[], Some("c0"), {"c0"}, 0, None, "")
  }

  lemma SecretsAreOpening(b: Backend, text: Text)
    requires b.ignores(map[".env" := Blob(text, true)], ".env")
    ensures Opening(b, Secrets(text)) && Secrets(text).sys.pending == [] && Secrets(text).sys.pane.overtaken.None?
    ensures Secrets(text).sys.pane.props == Props("", "operator", Status([], Some("c0")), 0)
  {
  }

  /** Opening an ignored file: it is compared with itself, as if HEAD held every line of it. */
  lemma AnIgnoredFileIsComparedWithItself(b: Backend, text: Text, status: Status)
    requires b.ignores(map[".env" := Blob(text, true)], ".env")
    requires text != "" && Editable(b, Blob(text, true))
    ensures var w, run := Secrets(text), [Selecting(".env"), Answering(status, "")];
            && Opening(b, w) && CanRun(b, w, run) && OrderlyRun(b, w, run)
            && var v := Afterwards(b, w, run);
               && Quiet(v) && v.sys.pane.file.Some? && Overlooked(b, v)
               && Original(v.sys.pane) == text && !ComparesWithHead(b, v)
  {
    hide Happens, CanHappen, Start, Orderly, CanRun, OrderlyRun, Afterwards;
    var w := Secrets(text);
    SecretsAreOpening(b, text);
    var select, answer := Selecting(".env"), Answering(status, "");
    assert |".env"| == 4;
    SelectedUnderSilence(b, w, ".env");
    var u := Happens(b, w, select);
    LeadsNowhere(b, w);
    assert Orderly(b, w, select) by { SecretsMayBeSelected(b, text); }
    LeadsOn(b, w, [], w, select);
    assert [] + [select] == [select];
    StartIsSound(w.sys.pane.props);
    SelectingStaysSound(b, w, ".env");
    OpenedUnderSilence(b, u, status);
    var v := Happens(b, u, answer);
    assert Orderly(b, u, answer) by { AnsweringIsOrderly(b, u, answer); }
    LeadsOn(b, w, [select], u, answer);
    assert [select] + [answer] == [select, answer];
    assert ".env" !in v.head;
  }

  lemma SecretsMayBeSelected(b: Backend, text: Text)
    requires b.ignores(map[".env" := Blob(text, true)], ".env")
    ensures Orderly(b, Secrets(text), Selecting(".env"))
  {
  }

  lemma SelectingStaysSound(b: Backend, w: World, path: Path)
    requires Sound(w.sys)
    ensures CanHappen(b, w, Selecting(path)) && Sound(Happens(b, w, Selecting(path)).sys)
  {
    StepKeepsSound(w.sys, Show(w.sys.pane.props.(selected := path)));
  }

  lemma AnsweringIsOrderly(b: Backend, w: World, h: Happening)
    requires h.Answering? || h.Reloading? || h.Typing?
    ensures Orderly(b, w, h)
  {
  }
}
