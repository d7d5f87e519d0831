/** Reads that no longer count: what is left of them once the selection and the version have moved. */
module EditorIdle {
  import opened Checkout
  import opened CodePane
  import opened EditorBase
  import opened EditorBaseSteps
  import opened EditorMoves
  import opened EditorRuns
  import opened EditorSafety
  import opened EditorSelection
  import opened Fifo
  import opened Wrappers

  /** An answer to it leaves file, draft and read alone. */
  predicate Idle(p: Pane, request: Request) {
    match request
    case OpenRead(_, run) => run != p.openRun
    case ReRead(_, read, run) => run != p.rereadRun || read != p.read
    case CommittedRead(_, _, _) => true
    case _ => false
  }

  /** Nothing but HEAD's side has moved. */
  predicate SameButBase(p: Pane, q: Pane) { q == p.(committed := q.committed, editor := q.editor) }

  const ANSWER := Answering(Status([], None), "")

  lemma IdleAnswered(b: Backend, w: World)
    requires Sound(w.sys) && |w.sys.pending| > 0 && Idle(w.sys.pane, w.sys.pending[0].op)
    ensures CanHappen(b, w, ANSWER) && Orderly(b, w, ANSWER)
    ensures var v := Happens(b, w, ANSWER);
            && v == w.(sys := v.sys) && Sound(v.sys) && v.sys.pending == w.sys.pending[1..]
            && SameButBase(w.sys.pane, v.sys.pane)
            && (!w.sys.pending[0].op.CommittedRead? ==> v.sys.pane == w.sys.pane)
  {
    hide Rendered, IsDeleted, Serve, ServeHead, AnsweredPane;
    TheAnswerFits(b, w);
    assert w.sys.pending[1..] == Without(w.sys.pending, 0);
    if w.sys.pending[0].op.CommittedRead? && w.sys.pending[0].op.run == w.sys.pane.baseRun {
      CommittedFacts(b, w);
    } else {
      InertAnswer(b, w, w.sys.pane);
    }
    AnsweredIsAStep(b, w);
    StepKeepsSound(w.sys, Answer(0, ReplyOf(b, w, w.sys.pending[0].op)));
  }

  lemma AnsweredIsAStep(b: Backend, w: World)
    requires |w.sys.pending| > 0
    ensures Enabled(w.sys, Answer(0, ReplyOf(b, w, w.sys.pending[0].op)))
    ensures AnsweredPane(b, w) == Step(w.sys, Answer(0, ReplyOf(b, w, w.sys.pending[0].op)))
  {
    TheAnswerFits(b, w);
  }

  /** The first n calls, all idle, are answered. */
  lemma {:induction false} IdleAllAnswered(b: Backend, w: World, n: nat) returns (run: seq<Happening>, v: World)
    requires Sound(w.sys) && n <= |w.sys.pending| && w.sys.pane.overtaken.None?
    requires forall i :: 0 <= i < n ==> Idle(w.sys.pane, w.sys.pending[i].op)
    ensures Leads(b, w, run, v) && v == w.(sys := v.sys) && Sound(v.sys)
    ensures v.sys.pending == w.sys.pending[n..] && SameButBase(w.sys.pane, v.sys.pane)
    ensures (forall i :: 0 <= i < n ==> !w.sys.pending[i].op.CommittedRead?) ==> v.sys.pane == w.sys.pane
    decreases n
  {
    hide Happens, CanHappen, Leads, Orderly, Sound;
    LeadsNowhere(b, w);
    run, v := [], w;
    if n > 0 {
      IdleAnswered(b, w);
      var w1 := Happens(b, w, ANSWER);
      LeadsOn(b, w, [], w, ANSWER);
      run, v := IdleAllAnswered(b, w1, n - 1);
      LeadsThrough(b, w, [] + [ANSWER], w1, run, v);
      run := [] + [ANSWER] + run;
    }
  }

  /** A version bump makes every re-read in the queue idle, and asks once more at the end. */
  lemma BumpedUnderSilence(b: Backend, w: World)
    requires Sound(w.sys)
    ensures CanHappen(b, w, Bumping) && Orderly(b, w, Bumping)
    ensures var v, p := Happens(b, w, Bumping), w.sys.pane;
            && v == w.(sys := v.sys) && Sound(v.sys)
            && v.sys.pane == p.(props := Bumped(p.props), rereadRun := p.rereadRun + 1, editor := v.sys.pane.editor)
            && v.sys.pending == w.sys.pending +
                 if p.file.None? || p.file.value.deleted then []
                 else [Pending(p.props.workbench, ReRead(p.file.value.path, p.read, p.rereadRun + 1))]
  {
    hide Mount, IsDeleted, Find;
    var p := w.sys.pane;
    var x := p.(props := Bumped(p.props));
    assert OpenKey(x.props) == OpenKey(p.props) && BaseKey(x) == BaseKey(p) by { BumpKeepsKeys(p); }
    OnlyRereads(p, x);
    MountsOnly(RereadEffect(x, x).pane);
    StepKeepsSound(w.sys, Show(Bumped(p.props)));
  }

  lemma BumpKeepsKeys(p: Pane)
    ensures OpenKey(Bumped(p.props)) == OpenKey(p.props) && BaseKey(p.(props := Bumped(p.props))) == BaseKey(p)
  {
  }

  lemma OnlyRereads(p: Pane, x: Pane)
    requires OpenKey(x.props) == OpenKey(p.props) && BaseKey(x) == BaseKey(p) && x.props.version != p.props.version
    ensures Rendered(p, x) == Turn(Mount(RereadEffect(x, x).pane), RereadEffect(x, x).issued)
  {
    hide Mount, OpenKey, BaseKey;
  }

  lemma MountsOnly(x: Pane)
    ensures Mount(x) == x.(editor := Mount(x).editor) && BaseKey(Mount(x)) == BaseKey(x)
  {
  }

  /** The numbers re-reads carry are known in every world. */
  lemma HappeningKeepsRereadsKnown(b: Backend, w: World, h: Happening)
    requires RereadsKnown(w.sys) && CanHappen(b, w, h)
    ensures RereadsKnown(Happens(b, w, h).sys)
  {
    hide Step, RereadsKnown, AnsweredPane, Truthful;
    var s, props := w.sys, w.sys.pane.props;
    match h
    case Typing(text) => StepKeepsRereadsKnown(s, Type(text));
    case Saving => StepKeepsRereadsKnown(s, Save);
    case Selecting(path) => StepKeepsRereadsKnown(s, Show(props.(selected := path)));
    case Clicking(call) => StepKeepsRereadsKnown(s, Ask(call));
    case Reloading => StepKeepsRereadsKnown(s, Ask(StatusRead));
    case Bumping => StepKeepsRereadsKnown(s, Show(Bumped(props)));
    case Answering(status, id) =>
      AnsweredIsAStep(b, w);
      StepKeepsRereadsKnown(s, Answer(0, ReplyOf(b, w, s.pending[0].op)));
      var s1 := AnsweredPane(b, w);
      StepKeepsRereadsKnown(s1, Ask(StatusAfterAct));
      StepKeepsRereadsKnown(s1, Show(NewStatus(props, status)));
      StepKeepsRereadsKnown(s1, Show(Bumped(NewStatus(props, status))));
  }

  lemma {:induction false} LedKeepsRereadsKnown(b: Backend, w: World, run: seq<Happening>, v: World)
    requires Leads(b, w, run, v) && RereadsKnown(w.sys)
    ensures RereadsKnown(v.sys)
    decreases |run|
  {
    hide RereadsKnown, CanHappen, Happens, Orderly;
    if run != [] {
      HappeningKeepsRereadsKnown(b, w, run[0]);
      LedKeepsRereadsKnown(b, Happens(b, w, run[0]), run[1..], v);
    }
  }
}
