/**
 The Files pane and its editor (FilesPane and Editor in frontend/src/code.tsx), as a
 state machine.

 One event handler, or one answer, is one step, together with the render and the effects
 it causes. The effects run in the order they are declared: the open, the committed side
 of the diff, the re-read. A cleanup that sets `cancelled` is a run number here: each
 effect counts its runs, a request carries the run that issued it, and it is cancelled
 exactly when a later run has taken place.
 */
module CodePane {
  import opened Fifo
  import opened Wrappers

  type Text = string
  type Path = string

  // --- what the pane is given ---

  datatype Kind = Modified | Added | Deleted | Renamed | Copied | Untracked | Unmerged | Typechange

  datatype Change = Change(path: Path, kind: Kind, renamedFrom: Option<Path>)

  datatype Status = Status(changes: seq<Change>, head: Option<string>)

  /** The address and the parent's state. An empty `selected` or `workbench` stands for an absent parameter. */
  datatype Props = Props(selected: Path, workbench: string, status: Status, version: nat)

  /** The first entry for this path, if there is one. */
  function Find(changes: seq<Change>, path: Path): (change: Option<Change>)
    ensures change.None? ==> forall i :: 0 <= i < |changes| ==> changes[i].path != path
    ensures change.Some? ==> exists i ::
      0 <= i < |changes| && changes[i] == change.value && changes[i].path == path &&
      forall j :: 0 <= j < i ==> changes[j].path != path
  {
    if changes == [] then None
    else if changes[0].path == path then Some(changes[0])
    else Find(changes[1..], path)
  }

  function ChangeOf(props: Props): Option<Change> {
    if props.selected == "" then None else Find(props.status.changes, props.selected)
  }

  predicate IsDeleted(props: Props) {
    ChangeOf(props).Some? && ChangeOf(props).value.kind.Deleted?
  }

  /** Where the last commit holds the selected file, when git says it differs from the working copy. */
  function CommittedPath(props: Props): Option<Path> {
    match ChangeOf(props)
    case Some(change) =>
      if change.kind.Added? || change.kind.Untracked? then None else Some(change.renamedFrom.GetOr(change.path))
    case None => None
  }

  predicate IsNew(props: Props) {
    ChangeOf(props).Some? && CommittedPath(props).None?
  }

  // --- what the pane holds ---

  /**
   The file on screen. `origin` is bookkeeping of the model: the workbench its read was
   sent to. The code keeps no such thing, which is the point of some theorems below.
   */
  datatype OpenFile = OpenFile(
    path: Path, text: Text, binary: bool, truncated: bool, deleted: bool, language: Option<string>, origin: string)

  /** The last commit's side of the diff: its text, or why there is none to compare with. */
  datatype Side = Held(text: Text) | NotCompared(note: string)

  datatype Committed = Committed(read: nat, side: Side)

  /** The Monaco editor on screen: what it is keyed by, the text it owns, and whether it takes typing. */
  datatype Editor = Editor(read: nat, path: Path, language: string, text: Text, readOnly: bool)

  datatype Pane = Pane(
    props: Props,
    file: Option<OpenFile>, draft: Text, error: Option<string>, saving: bool, read: nat,
    committed: Option<Committed>, overtaken: Option<nat>,
    openRun: nat, baseRun: nat, rereadRun: nat,
    editor: Option<Editor>)

  predicate Dirty(p: Pane) {
    p.file.Some? && !p.file.value.binary && p.draft != p.file.value.text
  }

  /** What Monaco compares with: `base?.text ?? file.text`. */
  function Original(p: Pane): Text
    requires p.file.Some?
  {
    match p.committed
    case Some(Committed(read, Held(text))) => if read == p.read then text else p.file.value.text
    case _ => p.file.value.text
  }

  // --- what it asks for, and the answers ---

  /**
   The calls of the bar and of the reload. `StatusAfterAct` is the status an action reads last, which
   also bumps the version.
   */
  datatype BarCall = StatusRead | Fetch | Commit | Push | StatusAfterAct | Discard | Stash

  datatype Request =
    | OpenRead(path: Path, run: nat)
    | ReRead(path: Path, read: nat, run: nat)
    | CommittedRead(path: Path, read: nat, run: nat)
    | Write(file: OpenFile, draft: Text)
    | Bar(call: BarCall)

  datatype Loaded = Loaded(path: Path, text: Text, binary: bool, truncated: bool, language: Option<string>)

  datatype Reply =
    | Content(loaded: Loaded)
    | AtHead(exists_: bool, text: Text, binary: bool, truncated: bool)
    | Done
    | Refused(status: nat, message: string)

  /** A read is answered with the file it named. */
  predicate Fits(request: Request, reply: Reply) {
    reply.Refused? ||
    match request
    case OpenRead(path, _) => reply.Content? && reply.loaded.path == path
    case ReRead(path, _, _) => reply.Content? && reply.loaded.path == path
    case CommittedRead(_, _, _) => reply.AtHead?
    case Write(_, _) => reply.Done?
    case Bar(_) => true
  }

  /** The pane after a step, and what the step put into the queue of the workbench on screen. */
  datatype Turn = Turn(pane: Pane, issued: seq<Request>)

  // --- the editor ---

  function EndsWith(s: string, suffix: string): (ends: bool)
    ensures ends <==> exists k :: 0 <= k <= |s| && s[k..] == suffix
  {
    var ends := |suffix| <= |s| && s[|s| - |suffix|..] == suffix;
    assert forall k :: 0 <= k <= |s| ==> |s[k..]| == |s| - k;
    ends
  }

  function MonacoLanguage(language: Option<string>, path: Path): string {
    var named := language.GetOr("");
    if named in {"python", "yaml", "dockerfile", "markdown", "shell", "json"} then named
    else if named == "toml" then "ini"
    else if EndsWith(path, ".py") then "python"
    else if EndsWith(path, ".yml") || EndsWith(path, ".yaml") then "yaml"
    else "plaintext"
  }

  predicate EndsIn(s: string, suffix: string) { exists k :: 0 <= k <= |s| && s[k..] == suffix }

  /** The backend's word counts where Monaco knows it, and a toml file is an ini file; then the name does. */
  lemma TheLanguageIsNamedOrGuessed(language: Option<string>, path: Path)
    ensures var named := language.GetOr("");
            var known := {"python", "yaml", "dockerfile", "markdown", "shell", "json"};
            var guessed := if EndsIn(path, ".py") then "python"
              else if EndsIn(path, ".yml") || EndsIn(path, ".yaml") then "yaml" else "plaintext";
            && (named in known ==> MonacoLanguage(language, path) == named)
            && (named == "toml" ==> MonacoLanguage(language, path) == "ini")
            && (named !in known && named != "toml" ==> MonacoLanguage(language, path) == guessed)
  {
  }

  predicate ShownAsText(file: Option<OpenFile>) {
    file.Some? && !file.value.binary && !file.value.truncated
  }

  /** Keyed by the read, re-created on another path or language, and left alone otherwise. */
  function Mount(p: Pane): Pane {
    if !ShownAsText(p.file) then p.(editor := None)
    else
      var f := p.file.value;
      var language := MonacoLanguage(f.language, f.path);
      match p.editor
      case Some(e) =>
        if e.read == p.read && e.path == f.path && e.language == language then p
        else p.(editor := Some(Editor(p.read, f.path, language, p.draft, f.deleted)))
      case None => p.(editor := Some(Editor(p.read, f.path, language, p.draft, f.deleted)))
  }

  // --- the effects ---

  function OpenKey(props: Props): (Path, string, bool) {
    (props.selected, props.workbench, IsDeleted(props))
  }

  function BaseKey(p: Pane): (nat, Option<Path>, bool, Option<string>) {
    (p.read, CommittedPath(p.props), IsNew(p.props), p.props.status.head)
  }

  function OpenEffect(p: Pane): Turn {
    var q := p.(openRun := p.openRun + 1, error := None);
    var path := p.props.selected;
    if path == "" then Turn(q.(file := None, draft := ""), [])
    else if IsDeleted(p.props) then
      var gone := OpenFile(path, "", false, false, true, None, p.props.workbench);
      Turn(q.(file := Some(gone), draft := "", read := p.read + 1), [])
    else Turn(q, [OpenRead(path, q.openRun)])
  }

  function SavedText(p: Pane): Text {
    if p.file.Some? then p.file.value.text else ""
  }

  /** `shown` is the render the effect closed over, `p` the state it adds to. */
  function BaseEffect(shown: Pane, p: Pane): Turn {
    if shown.read == 0 then Turn(p, [])
    else
      var q := p.(baseRun := p.baseRun + 1);
      match CommittedPath(shown.props)
      case None =>
        var text := if IsNew(shown.props) then "" else SavedText(shown);
        Turn(q.(committed := Some(Committed(shown.read, Held(text)))), [])
      case Some(path) => Turn(q, [CommittedRead(path, shown.read, q.baseRun)])
  }

  function RereadEffect(shown: Pane, p: Pane): Turn {
    var q := p.(rereadRun := p.rereadRun + 1);
    if shown.file.None? || shown.file.value.deleted then Turn(q, [])
    else Turn(q, [ReRead(shown.file.value.path, shown.read, q.rereadRun)])
  }

  // Each effect runs if its dependencies moved between the renders of `before` and `x`.

  function OpenStage(before: Pane, x: Pane): Turn {
    if OpenKey(x.props) != OpenKey(before.props) then OpenEffect(x) else Turn(x, [])
  }

  function BaseStage(before: Pane, x: Pane, t: Turn): Turn {
    if BaseKey(x) == BaseKey(before) then t
    else var e := BaseEffect(x, t.pane); Turn(e.pane, t.issued + e.issued)
  }

  function RereadStage(before: Pane, x: Pane, t: Turn): Turn {
    if x.props.version == before.props.version then t
    else var e := RereadEffect(x, t.pane); Turn(e.pane, t.issued + e.issued)
  }

  function Flushed(before: Pane, x: Pane): Turn {
    RereadStage(before, x, BaseStage(before, x, OpenStage(before, x)))
  }

  /** The base effect again, where the flush itself moved the read. */
  function AgainStage(x: Pane, t: Turn): Turn {
    if t.pane.read == x.read then t
    else var e := BaseEffect(t.pane, t.pane); Turn(e.pane, t.issued + e.issued)
  }

  /** The render of `x` after `before`: its effects, then the render their own updates cause. */
  function Rendered(before: Pane, x: Pane): Turn {
    var t := AgainStage(x, Flushed(before, x));
    t.(pane := Mount(t.pane))
  }

  // --- the steps ---

  function Blank(props: Props): Pane {
    Pane(props, None, "", None, false, 0, None, None, 0, 0, 0, None)
  }

  /** The first render. The re-read effect sees the version it was created with and does nothing. */
  function Opened(props: Props): Turn {
    var x := Blank(props);
    var t := AgainStage(x, OpenEffect(x));
    t.(pane := Mount(t.pane))
  }

  function WithProps(p: Pane, props: Props): Turn {
    Rendered(p, p.(props := props))
  }

  predicate CanType(p: Pane) {
    p.editor.Some? && !p.editor.value.readOnly
  }

  function Typed(p: Pane, text: Text): Turn
    requires CanType(p)
  {
    Rendered(p, p.(draft := text, editor := Some(p.editor.value.(text := text))))
  }

  /** The button, or Ctrl+S in the editor, read-only or not and dirty or not. */
  predicate CanSave(p: Pane) {
    (Dirty(p) && !p.saving) || p.editor.Some?
  }

  function Saved(p: Pane): Turn {
    if p.file.None? || p.file.value.binary || p.file.value.deleted then Turn(p, [])
    else
      var t := Rendered(p, p.(saving := true, error := None));
      Turn(t.pane, [Write(p.file.value, p.draft)] + t.issued)
  }

  function Fresh(loaded: Loaded, origin: string): OpenFile {
    OpenFile(loaded.path, loaded.text, loaded.binary, loaded.truncated, false, loaded.language, origin)
  }

  function OpenAnswered(p: Pane, origin: string, run: nat, reply: Reply): Pane
    requires reply.Content? || reply.Refused?
  {
    if run != p.openRun then p
    else match reply
      case Content(loaded) => p.(file := Some(Fresh(loaded, origin)), draft := loaded.text, read := p.read + 1)
      case Refused(_, message) => p.(file := None, error := Some(message))
  }

  /** `settle`: only for the read it was asked about, and never over unsaved edits. */
  function RereadAnswered(p: Pane, origin: string, read: nat, run: nat, reply: Reply): Pane
    requires reply.Content? || reply.Refused?
  {
    if reply.Content? && p.file.Some? && reply.loaded.text == p.file.value.text then p
    else if run != p.rereadRun || p.read != read || p.file.None? then p
    else if p.draft != p.file.value.text then p.(overtaken := Some(p.read))
    else match reply
      case Content(loaded) => p.(file := Some(Fresh(loaded, origin)), draft := loaded.text, read := p.read + 1)
      case Refused(status, message) =>
        p.(file := if status == 404 then None else p.file, error := Some(message))
  }

  function SideOf(reply: Reply): Side
    requires reply.AtHead? || reply.Refused?
  {
    match reply
    case Refused(_, message) => NotCompared(message)
    case AtHead(exists_, text, binary, truncated) =>
      if binary then NotCompared("the last commit holds it as binary")
      else if truncated then NotCompared("the last commit holds more of it than the editor limit")
      else Held(if exists_ then text else "")
  }

  function CommittedAnswered(p: Pane, read: nat, run: nat, reply: Reply): Pane
    requires reply.AtHead? || reply.Refused?
  {
    if run != p.baseRun then p else p.(committed := Some(Committed(read, SideOf(reply))))
  }

  /** The continuation of `save`: it puts back the file it captured, whatever is on screen by now. */
  function WriteAnswered(p: Pane, file: OpenFile, draft: Text, reply: Reply): Pane
    requires reply.Done? || reply.Refused?
  {
    match reply
    case Done => p.(file := Some(file.(text := draft)), overtaken := None, saving := false)
    case Refused(_, message) => p.(error := Some(message), saving := false)
  }

  function Answered(p: Pane, origin: string, request: Request, reply: Reply): Turn
    requires Fits(request, reply)
  {
    match request
    case OpenRead(_, run) => Rendered(p, OpenAnswered(p, origin, run, reply))
    case ReRead(_, read, run) => Rendered(p, RereadAnswered(p, origin, read, run, reply))
    case CommittedRead(_, read, run) => Rendered(p, CommittedAnswered(p, read, run, reply))
    case Write(file, draft) => Rendered(p, WriteAnswered(p, file, draft, reply))
    case Bar(_) => Turn(p, [])
  }

  // --- the pane on its queues, with any environment ---

  datatype System = System(pane: Pane, pending: seq<Pending<Request>>)

  datatype Event =
    | Show(props: Props)
    | Type(text: Text)
    | Save
    | Ask(call: BarCall)
    | Answer(k: nat, reply: Reply)

  function Sent(workbench: string, issued: seq<Request>): (sent: seq<Pending<Request>>)
    ensures |sent| == |issued|
    ensures forall i :: 0 <= i < |sent| ==> sent[i] == Pending(workbench, issued[i])
  {
    seq(|issued|, i requires 0 <= i < |issued| => Pending(workbench, issued[i]))
  }

  function After(t: Turn, pending: seq<Pending<Request>>): System {
    System(t.pane, pending + Sent(t.pane.props.workbench, t.issued))
  }

  ghost predicate Enabled(s: System, e: Event) {
    match e
    case Show(_) => true
    case Type(_) => CanType(s.pane)
    case Save => CanSave(s.pane)
    case Ask(_) => true
    case Answer(k, reply) => MayAnswer(s.pending, k) && Fits(s.pending[k].op, reply)
  }

  ghost function Step(s: System, e: Event): System
    requires Enabled(s, e)
  {
    match e
    case Show(props) => After(WithProps(s.pane, props), s.pending)
    case Type(text) => After(Typed(s.pane, text), s.pending)
    case Save => After(Saved(s.pane), s.pending)
    case Ask(call) => After(Turn(s.pane, [Bar(call)]), s.pending)
    case Answer(k, reply) =>
      After(Answered(s.pane, s.pending[k].workbench, s.pending[k].op, reply), Without(s.pending, k))
  }

  ghost predicate Possible(s: System, run: seq<Event>)
    decreases |run|
  {
    run == [] || (Enabled(s, run[0]) && Possible(Step(s, run[0]), run[1..]))
  }

  ghost function Final(s: System, run: seq<Event>): System
    requires Possible(s, run)
    decreases |run|
  {
    if run == [] then s else Final(Step(s, run[0]), run[1..])
  }

  function Start(props: Props): System {
    After(Opened(props), [])
  }

  // --- the component as the source writes it ---

  class FilesPane {
    var props: Props
    var file: Option<OpenFile>
    var draft: Text
    var fileError: Option<string>
    var saving: bool
    var read: nat
    var committed: Option<Committed>
    var overtaken: Option<nat>
    var editor: Option<Editor>
    // What each effect ran with last, and how often it has run.
    var openKey: (Path, string, bool)
    var baseKey: (nat, Option<Path>, bool, Option<string>)
    var reread: nat
    var openRun: nat
    var baseRun: nat
    var rereadRun: nat
    // The requests of the step in progress.
    var issued: seq<Request>

    ghost function State(): Pane
      reads this
    {
      Pane(props, file, draft, fileError, saving, read, committed, overtaken, openRun, baseRun, rereadRun, editor)
    }

    /** Between steps, every effect has run for what is on screen. */
    ghost predicate Valid()
      reads this
    {
      openKey == OpenKey(props) && baseKey == BaseKey(State()) && reread == props.version
    }

    constructor (props: Props)
      ensures Valid() && Progress() == Opened(props)
    {
      this.props := props;
      file, draft, fileError, saving, read := None, "", None, false, 0;
      committed, overtaken, editor := None, None, None;
      openRun, baseRun, rereadRun := 0, 0, 0;
      openKey := ("", "", false);
      baseKey := (0, None, false, None);
      reread := props.version;
      issued := [];
      new;
      FirstRender();
    }

    method FirstRender()
      requires State() == Blank(props) && issued == [] && reread == props.version
      modifies this`openKey, this`openRun, this`fileError, this`file, this`draft, this`read, this`issued,
               this`baseRun, this`committed, this`baseKey, this`editor
      ensures Valid() && Progress() == Opened(props)
    {
      hide AgainStage, Mount, CommittedPath, IsNew, IsDeleted;
      RunOpenEffect();
      openKey := OpenKeyNow();
      assert Progress() == OpenEffect(Blank(props));
      BaseAgain(0, Blank(props));
      MountEditor();
    }

    // What the component works out on every render.

    function ChangeNow(): (change: Option<Change>)
      reads this
      ensures change == ChangeOf(props)
    {
      if props.selected == "" then None else Find(props.status.changes, props.selected)
    }

    function DeletedNow(): (deleted: bool)
      reads this
      ensures deleted == IsDeleted(props)
    {
      ChangeNow().Some? && ChangeNow().value.kind == Deleted
    }

    function CommittedPathNow(): (path: Option<Path>)
      reads this
      ensures path == CommittedPath(props)
    {
      if ChangeNow().Some? && ChangeNow().value.kind != Added && ChangeNow().value.kind != Untracked then
        match ChangeNow().value.renamedFrom
        case Some(from) => Some(from)
        case None => Some(ChangeNow().value.path)
      else None
    }

    function IsNewNow(): (isNew: bool)
      reads this
      ensures isNew == IsNew(props)
    {
      ChangeNow().Some? && CommittedPathNow() == None
    }

    function OpenKeyNow(): (key: (Path, string, bool))
      reads this
      ensures key == OpenKey(props)
    {
      (props.selected, props.workbench, DeletedNow())
    }

    function SavedTextNow(): (text: Text)
      reads this
      ensures text == SavedText(State())
    {
      match file
      case None => ""
      case Some(f) => f.text
    }

    function BaseKeyNow(): (key: (nat, Option<Path>, bool, Option<string>))
      reads this
      ensures key == BaseKey(State())
    {
      (read, CommittedPathNow(), IsNewNow(), props.status.head)
    }

    method RunOpenEffect()
      modifies this`openRun, this`fileError, this`file, this`draft, this`read, this`issued
      ensures State() == OpenEffect(old(State())).pane
      ensures issued == old(issued) + OpenEffect(old(State())).issued
    {
      openRun := openRun + 1;
      if props.selected == "" {
        file := None;
        draft := "";
        fileError := None;
        return;
      }
      if DeletedNow() {
        file := Some(OpenFile(props.selected, "", false, false, true, None, props.workbench));
        draft := "";
        fileError := None;
        read := read + 1;
        return;
      }
      fileError := None;
      issued := issued + [OpenRead(props.selected, openRun)];
    }

    /** The arguments are the values the effect closed over. */
    method RunBaseEffect(readShown: nat, savedShown: Text, ghost shown: Pane)
      requires shown.props == props && shown.read == readShown && SavedText(shown) == savedShown
      modifies this`baseRun, this`committed, this`issued
      ensures State() == BaseEffect(shown, old(State())).pane
      ensures issued == old(issued) + BaseEffect(shown, old(State())).issued
    {
      if readShown == 0 {
        return;
      }
      baseRun := baseRun + 1;
      match CommittedPathNow() {
        case None => committed := Some(Committed(readShown, Held(if IsNewNow() then "" else savedShown)));
        case Some(path) => issued := issued + [CommittedRead(path, readShown, baseRun)];
      }
    }

    method RunRereadEffect(fileShown: Option<OpenFile>, readShown: nat, ghost shown: Pane)
      requires shown.file == fileShown && shown.read == readShown
      modifies this`rereadRun, this`reread, this`issued
      ensures reread == props.version
      ensures State() == RereadEffect(shown, old(State())).pane
      ensures issued == old(issued) + RereadEffect(shown, old(State())).issued
    {
      rereadRun := rereadRun + 1;
      reread := props.version;
      match fileShown {
        case None =>
        case Some(f) =>
          if !f.deleted {
            issued := issued + [ReRead(f.path, readShown, rereadRun)];
          }
      }
    }

    method MountEditor()
      modifies this`editor
      ensures State() == Mount(old(State()))
    {
      if file.None? || file.value.binary || file.value.truncated {
        editor := None;
        return;
      }
      var f := file.value;
      var language := MonacoLanguage(f.language, f.path);
      if editor.None? || editor.value.read != read || editor.value.path != f.path || editor.value.language != language {
        editor := Some(Editor(read, f.path, language, draft, f.deleted));
      }
    }

    /** What the step has done so far. */
    ghost function Progress(): Turn
      reads this
    {
      Turn(State(), issued)
    }

    method OpenIfMoved(ghost before: Pane)
      requires openKey == OpenKey(before.props) && issued == []
      modifies this`openKey, this`openRun, this`fileError, this`file, this`draft, this`read, this`issued
      ensures openKey == OpenKey(props)
      ensures Progress() == OpenStage(before, old(State()))
    {
      if openKey != OpenKeyNow() {
        RunOpenEffect();
        openKey := OpenKeyNow();
      }
    }

    method BaseIfMoved(baseShown: (nat, Option<Path>, bool, Option<string>), savedShown: Text,
                       ghost before: Pane, ghost shown: Pane)
      requires baseKey == BaseKey(before) && baseShown == BaseKey(shown)
      requires shown.props == props && SavedText(shown) == savedShown
      modifies this`baseRun, this`committed, this`issued
      ensures Progress() == BaseStage(before, shown, old(Progress()))
    {
      if baseKey != baseShown {
        RunBaseEffect(baseShown.0, savedShown, shown);
      }
    }

    method RereadIfMoved(fileShown: Option<OpenFile>, readShown: nat, ghost before: Pane, ghost shown: Pane)
      requires reread == before.props.version
      requires shown.props == props && shown.file == fileShown && shown.read == readShown
      modifies this`rereadRun, this`reread, this`issued
      ensures reread == props.version
      ensures Progress() == RereadStage(before, shown, old(Progress()))
    {
      if reread != props.version {
        RunRereadEffect(fileShown, readShown, shown);
      }
    }

    method BaseAgain(readShown: nat, ghost shown: Pane)
      requires shown.read == readShown
      modifies this`baseRun, this`committed, this`issued, this`baseKey
      ensures Progress() == AgainStage(shown, old(Progress())) && baseKey == BaseKey(State())
    {
      if read != readShown {
        RunBaseEffect(read, SavedTextNow(), State());
      }
      baseKey := BaseKeyNow();
    }

    /** Renders: the effects in their order, the base once more if they moved the read, then the editor. */
    method Render(ghost before: Pane)
      requires openKey == OpenKey(before.props) && baseKey == BaseKey(before) && reread == before.props.version
      requires issued == []
      modifies this
      ensures Valid() && Progress() == Rendered(before, old(State()))
    {
      hide OpenStage, BaseStage, RereadStage, AgainStage, Mount, CommittedPath, IsNew, IsDeleted;
      ghost var shown := State();
      var fileShown, readShown, savedShown, baseShown := file, read, SavedTextNow(), BaseKeyNow();
      OpenIfMoved(before);
      BaseIfMoved(baseShown, savedShown, before, shown);
      RereadIfMoved(fileShown, readShown, before, shown);
      BaseAgain(readShown, shown);
      MountEditor();
    }

    method Show(props: Props)
      requires Valid()
      modifies this
      ensures Valid() && Progress() == WithProps(old(State()), props)
    {
      ghost var before := State();
      issued := [];
      this.props := props;
      assert State() == before.(props := props);
      Render(before);
    }

    method OnChange(text: Text)
      requires Valid() && CanType(State())
      modifies this
      ensures Valid() && Progress() == Typed(old(State()), text)
    {
      ghost var before := State();
      issued := [];
      editor := Some(editor.value.(text := text));
      draft := text;
      Render(before);
    }

    method Save()
      requires Valid()
      modifies this
      ensures Valid() && Progress() == Saved(old(State()))
    {
      ghost var before := State();
      issued := [];
      if file.None? || file.value.binary || file.value.deleted {
        return;
      }
      saving := true;
      fileError := None;
      var request := Write(file.value, draft);
      Render(before);
      issued := [request] + issued;
    }

    method OnOpened(origin: string, path: Path, run: nat, reply: Reply)
      requires Valid() && Fits(OpenRead(path, run), reply)
      modifies this
      ensures Valid() && Progress() == Answered(old(State()), origin, OpenRead(path, run), reply)
    {
      ghost var before := State();
      issued := [];
      if run == openRun {
        match reply {
          case Content(loaded) =>
            file := Some(OpenFile(
              loaded.path, loaded.text, loaded.binary, loaded.truncated, false, loaded.language, origin));
            draft := loaded.text;
            read := read + 1;
          case Refused(_, message) =>
            file := None;
            fileError := Some(message);
        }
      }
      assert State() == OpenAnswered(before, origin, run, reply);
      Render(before);
    }

    /** Only for the read it was asked about, and never over unsaved edits. */
    method SettleReread(origin: string, readBefore: nat, run: nat, reply: Reply)
      requires reply.Content? || reply.Refused?
      modifies this`file, this`draft, this`read, this`fileError, this`overtaken
      ensures State() == RereadAnswered(old(State()), origin, readBefore, run, reply)
    {
      if reply.Content? && file.Some? && reply.loaded.text == file.value.text {
        return;
      }
      if run != rereadRun || read != readBefore || file.None? {
        return;
      }
      if draft != file.value.text {
        overtaken := Some(read);
        return;
      }
      match reply {
        case Content(loaded) =>
          file := Some(OpenFile(
            loaded.path, loaded.text, loaded.binary, loaded.truncated, false, loaded.language, origin));
          draft := loaded.text;
          read := read + 1;
        case Refused(status, message) =>
          if status == 404 {
            file := None;
          }
          fileError := Some(message);
      }
    }

    method OnReread(origin: string, path: Path, readBefore: nat, run: nat, reply: Reply)
      requires Valid() && Fits(ReRead(path, readBefore, run), reply)
      modifies this
      ensures Valid() && Progress() == Answered(old(State()), origin, ReRead(path, readBefore, run), reply)
    {
      ghost var before := State();
      issued := [];
      SettleReread(origin, readBefore, run, reply);
      Render(before);
    }

    method OnCommitted(path: Path, readBefore: nat, run: nat, reply: Reply)
      requires Valid() && Fits(CommittedRead(path, readBefore, run), reply)
      modifies this
      ensures Valid() && Progress() == Answered(old(State()), "", CommittedRead(path, readBefore, run), reply)
    {
      ghost var before := State();
      issued := [];
      if run == baseRun {
        match reply {
          case Refused(_, message) => committed := Some(Committed(readBefore, NotCompared(message)));
          case AtHead(exists_, text, binary, truncated) =>
            if binary || truncated {
              committed := Some(Committed(readBefore, NotCompared(
                if binary then "the last commit holds it as binary"
                else "the last commit holds more of it than the editor limit")));
            } else {
              committed := Some(Committed(readBefore, Held(if exists_ then text else "")));
            }
        }
      }
      assert State() == CommittedAnswered(before, readBefore, run, reply);
      Render(before);
    }

    method OnWritten(captured: OpenFile, written: Text, reply: Reply)
      requires Valid() && Fits(Write(captured, written), reply)
      modifies this
      ensures Valid() && Progress() == Answered(old(State()), "", Write(captured, written), reply)
    {
      ghost var before := State();
      issued := [];
      match reply {
        case Done =>
          file := Some(captured.(text := written));
          overtaken := None;
        case Refused(_, message) => fileError := Some(message);
      }
      saving := false;
      assert State() == WriteAnswered(before, captured, written, reply);
      Render(before);
    }
  }
}
