/**
 The pane closed over one checkout: the working copy and HEAD it reads and writes, and
 the parent that turns saves and git actions into new statuses and version bumps.

 Calls are executed when they are answered. Nothing else moves the checkout here, and
 CallQueue.SequentiallyConsistent says that a workbench's calls are then executed in the
 order they are answered in.
 */
module Checkout {
  import opened CodePane
  import opened EditorSafety
  import opened EditorSelection
  import opened Fifo
  import opened Wrappers

  /** A file's bytes: the text they decode to, or the fact that they do not. */
  datatype Blob = Blob(text: Text, decodes: bool)

  type Tree = map<Path, Blob>

  /**
   What the deployment and git decide: the editor limit, the language of a path, and which paths
   the .gitignore files of a tree name. Git heeds those for files HEAD lacks, and only for them.
   */
  datatype Backend = Backend(limit: nat, languageOf: Path -> Option<string>, ignores: (Tree, Path) -> bool)

  function Shown(b: Backend, blob: Blob): Text {
    if |blob.text| > b.limit then blob.text[..b.limit] else blob.text
  }

  /** The working copy's side: a NUL makes a file binary, and a long one is cut. */
  function Serve(b: Backend, path: Path, blob: Blob): Loaded {
    var binary := !blob.decodes || '\0' in Shown(b, blob);
    Loaded(path, if binary then "" else Shown(b, blob), binary, |blob.text| > b.limit, b.languageOf(path))
  }

  /** HEAD's side: too long is not sent at all, and a replacement character also reads as binary. */
  function ServeHead(b: Backend, head: Tree, path: Path): Reply {
    if path !in head then AtHead(false, "", false, false)
    else if |head[path].text| > b.limit then AtHead(true, "", false, true)
    else if !head[path].decodes || '\0' in head[path].text || '\U{FFFD}' in head[path].text
    then AtHead(true, "", true, false)
    else AtHead(true, head[path].text, false, false)
  }

  /** What `git add --all` and a commit make HEAD: files it knows, and new ones that are not ignored. */
  function Staged(b: Backend, wc: Tree, head: Tree): Tree {
    map path | path in wc && (path in head || !b.ignores(wc, path)) :: wc[path]
  }

  /** HEAD's files over those HEAD lacks. */
  function Overlaid(wc: Tree, head: Tree): (tree: Tree)
    ensures tree.Keys == wc.Keys + head.Keys
    ensures forall path :: path in tree ==> tree[path] == if path in head then head[path] else wc[path]
  {
    map path | path in wc.Keys + head.Keys :: if path in head then head[path] else wc[path]
  }

  /**
   A discard or a stash: HEAD's files, and of the others those that are ignored - by the rules HEAD
   brings back for a discard, which resets first, and by the present ones for a stash.
   */
  function Reset(b: Backend, call: BarCall, wc: Tree, head: Tree): (tree: Tree)
    ensures Agrees(tree, head)
    ensures forall path :: path in tree && path !in head ==> path in wc && tree[path] == wc[path]
    ensures call.Stash? ==>
      forall path :: path !in head ==> (path in tree <==> path in wc && b.ignores(wc, path))
    ensures !call.Stash? ==>
      forall path :: path !in head ==> (path in tree <==> path in wc && b.ignores(Overlaid(wc, head), path))
  {
    var rules := if call.Stash? then wc else Overlaid(wc, head);
    map path | path in wc.Keys + head.Keys && (path in head || b.ignores(rules, path)) ::
      if path in head then head[path] else wc[path]
  }

  /** Every file of HEAD is there as HEAD has it. */
  predicate Agrees(wc: Tree, head: Tree) {
    forall path :: path in head ==> path in wc && wc[path] == head[path]
  }

  /**
   `reloads` are the reloads whose connection answer, which is not queued, is still out.
   `restoring` is the read that was on screen when a discard or a stash was last answered,
   until the re-read of it is. `taken` is the text that was on record when the read on screen, HEAD
   or the status's word on the file last moved.
   */
  datatype World = World(
    sys: System, wc: Tree, head: Tree, headId: Option<string>, ids: set<string>, reloads: nat,
    restoring: Option<nat>, taken: Text)

  /** What git status may say about a checkout. Renames and copies name where HEAD has the file. */
  ghost predicate Truthful(b: Backend, status: Status, wc: Tree, head: Tree, headId: Option<string>) {
    && status.head == headId
    && forall path: Path :: TruthfulAbout(b, Find(status.changes, path), path, wc, head)
  }

  /** Git is silent about a file that is as HEAD has it, and about an ignored one that HEAD lacks. */
  predicate TruthfulAbout(b: Backend, change: Option<Change>, path: Path, wc: Tree, head: Tree) {
    match change
    case None => path in wc ==> if path in head then head[path] == wc[path] else b.ignores(wc, path)
    case Some(c) =>
      c.path == path &&
      (c.kind.Deleted? ==> path !in wc && path in head && c.renamedFrom.None?) &&
      (c.kind.Added? || c.kind.Untracked? ==> path !in head) &&
      (!c.kind.Added? && !c.kind.Untracked? ==> c.renamedFrom.GetOr(path) in head)
  }

  /** After a commit git has nothing to say: what is left out is ignored, and what is in is as it is there. */
  lemma ACommitLeavesNothingToSay(b: Backend, wc: Tree, head: Tree, id: string)
    ensures Truthful(b, Status([], Some(id)), wc, Staged(b, wc, head), Some(id))
    ensures forall path :: path in Staged(b, wc, head) ==> path in wc && (path in head || !b.ignores(wc, path))
  {
  }

  datatype Happening =
    | Typing(text: Text)
    | Saving
    | Selecting(path: Path)
    | Clicking(call: BarCall)
    | Reloading
    | Bumping
    | Answering(status: Status, id: string)

  function ReplyOf(b: Backend, w: World, request: Request): Reply {
    match request
    case OpenRead(path, _) => if path in w.wc then Content(Serve(b, path, w.wc[path])) else Refused(404, "no such file")
    case ReRead(path, _, _) =>
      if path in w.wc then Content(Serve(b, path, w.wc[path])) else Refused(404, "no such file")
    case CommittedRead(path, _, _) => ServeHead(b, w.head, path)
    case Write(_, draft) => if |draft| > b.limit then Refused(400, "over the limit") else Done
    case Bar(_) => Done
  }

  function NewStatus(props: Props, status: Status): Props { props.(status := status) }

  function Bumped(props: Props): Props { props.(version := props.version + 1) }

  predicate Clickable(call: BarCall) { !call.StatusRead? && !call.StatusAfterAct? }

  /** The pane after the front call's own continuation. */
  ghost function AnsweredPane(b: Backend, w: World): System
    requires |w.sys.pending| > 0
  {
    assert Fits(w.sys.pending[0].op, ReplyOf(b, w, w.sys.pending[0].op));
    Step(w.sys, Answer(0, ReplyOf(b, w, w.sys.pending[0].op)))
  }

  ghost predicate CanHappen(b: Backend, w: World, h: Happening) {
    match h
    case Typing(_) => CanType(w.sys.pane)
    case Saving => CanSave(w.sys.pane)
    case Selecting(_) => true
    case Clicking(call) => Clickable(call)
    case Reloading => w.reloads > 0
    case Bumping => true
    case Answering(status, id) =>
      |w.sys.pending| > 0 &&
      match w.sys.pending[0].op
      case Bar(StatusRead) => Truthful(b, status, w.wc, w.head, w.headId)
      case Bar(Fetch) => Truthful(b, status, w.wc, w.head, w.headId)
      case Bar(StatusAfterAct) => Truthful(b, status, w.wc, w.head, w.headId)
      case Bar(Discard) => Truthful(b, status, Reset(b, Discard, w.wc, w.head), w.head, w.headId)
      case Bar(Stash) => Truthful(b, status, Reset(b, Stash, w.wc, w.head), w.head, w.headId)
      case Bar(Commit) => id !in w.ids
      case _ => true
  }

  ghost function Happens(b: Backend, w: World, h: Happening): World
    requires CanHappen(b, w, h)
  {
    Noted(w, Moves(b, w, h))
  }

  /** The world with the text the base is taken from, if its key moved. */
  function Noted(w: World, u: World): World {
    u.(taken := if BaseKey(u.sys.pane) == BaseKey(w.sys.pane) then w.taken else SavedText(u.sys.pane))
  }

  ghost function Moves(b: Backend, w: World, h: Happening): World
    requires CanHappen(b, w, h)
  {
    var s, props := w.sys, w.sys.pane.props;
    match h
    case Typing(text) => w.(sys := Step(s, Type(text)))
    case Saving => w.(sys := Step(s, Save))
    case Selecting(path) => w.(sys := Step(s, Show(props.(selected := path))))
    case Clicking(call) => w.(sys := Step(s, Ask(call)))
    case Reloading => w.(sys := Step(s, Ask(StatusRead)), reloads := w.reloads - 1)
    case Bumping => w.(sys := Step(s, Show(Bumped(props))))
    case Answering(status, id) =>
      var s1 := AnsweredPane(b, w);
      match s.pending[0].op
      case Write(f, draft) =>
        if |draft| > b.limit then w.(sys := s1)
        else w.(sys := s1, wc := w.wc[f.path := Blob(draft, true)], reloads := w.reloads + 1)
      case ReRead(_, read, run) =>
        w.(sys := s1, restoring := if run == s.pane.rereadRun && read == s.pane.read then None else w.restoring)
      case Bar(Commit) =>
        var staged := Staged(b, w.wc, w.head);
        if staged == w.head then w.(sys := s1)
        else w.(sys := Step(s1, Ask(StatusAfterAct)), head := staged, headId := Some(id), ids := w.ids + {id})
      case Bar(Push) => w.(sys := Step(s1, Ask(StatusAfterAct)))
      case Bar(StatusRead) => w.(sys := Step(s1, Show(NewStatus(props, status))))
      case Bar(Fetch) => w.(sys := Step(s1, Show(NewStatus(props, status))))
      case Bar(StatusAfterAct) => w.(sys := Step(s1, Show(Bumped(NewStatus(props, status)))))
      case Bar(call) =>
        var s2 := Step(s1, Show(Bumped(NewStatus(props, status))));
        w.(sys := s2, wc := Reset(b, call, w.wc, w.head), restoring := Some(s2.pane.read))
      case _ => w.(sys := s1)
  }

  ghost predicate CanRun(b: Backend, w: World, run: seq<Happening>)
    decreases |run|
  {
    run == [] || (CanHappen(b, w, run[0]) && CanRun(b, Happens(b, w, run[0]), run[1..]))
  }

  ghost function Afterwards(b: Backend, w: World, run: seq<Happening>): World
    requires CanRun(b, w, run)
    decreases |run|
  {
    if run == [] then w else Afterwards(b, Happens(b, w, run[0]), run[1..])
  }

  /** The pane opens on a checkout whose status has just been read. */
  ghost predicate Opening(b: Backend, w: World) {
    && w.sys == Start(w.sys.pane.props)
    && Truthful(b, w.sys.pane.props.status, w.wc, w.head, w.headId)
    && (w.headId.Some? ==> w.headId.value in w.ids)
    && w.reloads == 0 && w.restoring.None?
  }
}
