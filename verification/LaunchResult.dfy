/**
 Which run a launch_experiment result names (frontend/src/experiments.tsx:1656-1680). The result
 is the object itself, or a JSON text of it, or a list of content blocks whose texts are JSON, to
 any depth.
 */
module LaunchResult {
  import opened Wrappers
  import opened Json
  import opened JsonGrammar

  const TEXT: Str := Units("text")

  const EXPERIMENT_ID: Str := Units("experiment_id")

  // --- the extractor ---

  function LastNamed(members: seq<Member>, name: Str): (v: Option<Value>)
    ensures v.Some? ==> Weight(v.value) <= MemberWeights(members)
  {
    if members == [] then None
    else
      var later := LastNamed(members[1..], name);
      if later.Some? then later
      else if members[0].key == name then Some(members[0].value)
      else None
  }

  /** v?.name: nothing but an object has such a property. */
  function Field(v: Value, name: Str): (f: Option<Value>)
    ensures f.Some? ==> Weight(f.value) + 2 <= Weight(v)
  {
    if v.Object? then LastNamed(v.members, name) else None
  }

  /** The text may be prose, which is read as null. A value weighs less than the string it came in. */
  function ParseJson(raw: Str): (v: Value)
    ensures Weight(v) < Weight(String(raw))
  {
    Parse(raw).GetOr(Null)
  }

  function LaunchedId(content: Value): (id: Option<Str>)
    decreases Weight(content), 0
  {
    match content
    case String(raw) => LaunchedId(ParseJson(raw))
    case Array(blocks) => FirstId(blocks)
    case _ =>
      match Field(content, EXPERIMENT_ID)
      case Some(String(id)) => Some(id)
      case _ => None
  }

  function FirstId(blocks: seq<Value>): (id: Option<Str>)
    decreases Weights(blocks), 1
  {
    if blocks == [] then None
    else
      match BlockId(blocks[0])
      case Some(id) => if id == [] then FirstId(blocks[1..]) else Some(id)
      case None => FirstId(blocks[1..])
  }

  function BlockId(block: Value): (id: Option<Str>)
    decreases Weight(block), 0
  {
    match Field(block, TEXT)
    case Some(String(text)) => LaunchedId(ParseJson(text))
    case _ => None
  }

  // --- which block of an envelope counts ---

  /** A block that names no run, or one with the empty id, is passed over. */
  predicate PassedOver(block: Value) { BlockId(block) == None || BlockId(block) == Some([]) }

  predicate AllPassedOver(blocks: seq<Value>) {
    forall i :: 0 <= i < |blocks| ==> PassedOver(blocks[i])
  }

  predicate IsFirstId(blocks: seq<Value>, k: int, id: Str) {
    0 <= k < |blocks| && BlockId(blocks[k]) == Some(id) && id != [] &&
    (forall i :: 0 <= i < k ==> PassedOver(blocks[i]))
  }

  lemma {:induction false} FirstIdSkips(before: seq<Value>, blocks: seq<Value>)
    requires AllPassedOver(before)
    ensures FirstId(before + blocks) == FirstId(blocks)
  {
    if before == [] {
      assert before + blocks == blocks;
    } else {
      assert PassedOver(before[0]);
      assert (before + blocks)[1..] == before[1..] + blocks;
      FirstIdSkips(before[1..], blocks);
    }
  }

  lemma {:induction false} FirstIdIsAt(blocks: seq<Value>, id: Str) returns (k: int)
    requires FirstId(blocks) == Some(id)
    ensures IsFirstId(blocks, k, id)
    decreases |blocks|
  {
    hide BlockId;
    k := 0;
    if PassedOver(blocks[0]) {
      var j := FirstIdIsAt(blocks[1..], id);
      assert forall i :: 0 < i <= j ==> blocks[i] == blocks[1..][i - 1];
      k := j + 1;
    }
  }

  /** An envelope names the run of its first block with a non-empty id, and no other. */
  lemma TheFirstBlockWithAnIdWins(blocks: seq<Value>, id: Str)
    ensures LaunchedId(Array(blocks)) == Some(id) <==> exists k :: IsFirstId(blocks, k, id)
  {
    hide BlockId, Weight;
    if FirstId(blocks) == Some(id) {
      var k := FirstIdIsAt(blocks, id);
    }
    if k :| IsFirstId(blocks, k, id) {
      FirstIdSkips(blocks[..k], blocks[k..]);
      assert blocks == blocks[..k] + blocks[k..];
    }
  }

  // --- what can be around a result ---

  /** A JSON text, or an envelope one of whose blocks holds one. */
  datatype Layer =
    | Text(text: Str)
    | Envelope(before: seq<Value>, block: Value, after: seq<Value>)

  function Outside(layer: Layer): Value {
    match layer
    case Text(text) => String(text)
    case Envelope(before, block, after) => Array(before + [block] + after)
  }

  function Inside(layer: Layer): (v: Option<Value>) {
    match layer
    case Text(text) => Parse(text)
    case Envelope(_, block, _) =>
      match Field(block, Units("text"))
      case Some(String(text)) => Parse(text)
      case _ => None
  }

  /** core, within these layers, is content; no block in front of the right one has an id of its own. */
  predicate Nested(content: Value, layers: seq<Layer>, core: Value)
    decreases |layers|
  {
    if layers == [] then content == core
    else
      content == Outside(layers[0]) && Inside(layers[0]).Some? &&
      (layers[0].Envelope? ==> AllPassedOver(layers[0].before)) &&
      Nested(Inside(layers[0]).value, layers[1..], core)
  }

  predicate NamesRun(core: Value, id: Str) {
    core.Object? && Field(core, Units("experiment_id")) == Some(String(id))
  }

  ghost predicate Carries(content: Value, id: Str) {
    exists layers, core :: Nested(content, layers, core) && NamesRun(core, id)
  }

  lemma {:induction false} NestedIdIsFound(content: Value, layers: seq<Layer>, core: Value, id: Str)
    requires Nested(content, layers, core) && LaunchedId(core) == Some(id) && id != []
    ensures LaunchedId(content) == Some(id)
    decreases |layers|
  {
    if layers != [] {
      NestedIdIsFound(Inside(layers[0]).value, layers[1..], core, id);
      if layers[0].Envelope? {
        var before, block, after := layers[0].before, layers[0].block, layers[0].after;
        assert BlockId(block) == Some(id);
        FirstIdSkips(before, [block] + after);
        assert before + [block] + after == before + ([block] + after);
      }
    }
  }

  lemma {:induction false} FoundIdIsNested(content: Value, id: Str) returns (layers: seq<Layer>, core: Value)
    requires LaunchedId(content) == Some(id) && id != []
    ensures Nested(content, layers, core) && NamesRun(core, id)
    decreases Weight(content), 0
  {
    match content {
      case String(raw) =>
        var more;
        more, core := FoundIdIsNested(ParseJson(raw), id);
        layers := [Text(raw)] + more;
        assert layers[1..] == more;
      case Array(blocks) =>
        layers, core := FoundIdIsInBlock(blocks, id);
      case _ =>
        layers, core := [], content;
    }
  }

  lemma {:induction false} FoundIdIsInBlock(blocks: seq<Value>, id: Str) returns (layers: seq<Layer>, core: Value)
    requires FirstId(blocks) == Some(id)
    ensures Nested(Array(blocks), layers, core) && NamesRun(core, id)
    decreases Weights(blocks), 1
  {
    hide Parse, FirstId;
    var k := FirstIdIsAt(blocks, id);
    BlockWeighsLess(blocks, k);
    var text := Field(blocks[k], TEXT).value.s;
    var more;
    more, core := FoundIdIsNested(ParseJson(text), id);
    var layer := Envelope(blocks[..k], blocks[k], blocks[k + 1..]);
    layers := [layer] + more;
    assert layers[1..] == more;
    assert blocks == blocks[..k] + [blocks[k]] + blocks[k + 1..];
  }

  lemma {:induction false} BlockWeighsLess(blocks: seq<Value>, k: nat)
    requires k < |blocks|
    ensures Weight(blocks[k]) <= Weights(blocks)
  {
    if k > 0 {
      BlockWeighsLess(blocks[1..], k - 1);
    }
  }

  /**
   The extractor is exact: it answers a non-empty id just when the result is, under some finite
   nesting of texts and envelopes, an object whose experiment_id is that id.
   */
  lemma AnswersTheCarriedId(content: Value, id: Str)
    requires id != []
    ensures LaunchedId(content) == Some(id) <==> Carries(content, id)
  {
    if LaunchedId(content) == Some(id) {
      var layers, core := FoundIdIsNested(content, id);
    }
    if Carries(content, id) {
      var layers, core :| Nested(content, layers, core) && NamesRun(core, id);
      NestedIdIsFound(content, layers, core, id);
    }
  }

  lemma OneIdIsCarried(content: Value, one: Str, other: Str)
    requires Carries(content, one) && Carries(content, other) && one != [] && other != []
    ensures one == other
  {
    AnswersTheCarriedId(content, one);
    AnswersTheCarriedId(content, other);
  }

  // --- encoding ---

  /** One step of encoding: to a text, or to the text of a block among others. */
  datatype Wrap =
    | Stringified
    | Enveloped(before: seq<Value>, front: seq<Member>, back: seq<Member>, after: seq<Value>)

  function TextBlock(front: seq<Member>, text: Str, back: seq<Member>): Value {
    Object(front + [Member(Units("text"), String(text))] + back)
  }

  function Wrapped(v: Value, wrap: Wrap): Value {
    match wrap
    case Stringified => String(Stringify(v))
    case Enveloped(before, front, back, after) =>
      Array(before + [TextBlock(front, Stringify(v), back)] + after)
  }

  /** core, encoded once for each wrap, the last of them first. */
  function Encoded(core: Value, wraps: seq<Wrap>): Value {
    if wraps == [] then core else Wrapped(Encoded(core, wraps[1..]), wraps[0])
  }

  /** The other blocks are JSON without an id ahead, and the block has one text. */
  predicate Proper(wrap: Wrap) {
    wrap.Enveloped? ==>
      AllPassedOver(wrap.before) &&
      WellFormed(Array(wrap.before)) && WellFormed(Array(wrap.after)) &&
      WellFormed(Object(wrap.front)) && WellFormed(Object(wrap.back)) &&
      (forall i :: 0 <= i < |wrap.back| ==> wrap.back[i].key != Units("text"))
  }

  predicate AllProper(wraps: seq<Wrap>) { forall i :: 0 <= i < |wraps| ==> Proper(wraps[i]) }

  lemma {:induction false} LastNamedIsLast(front: seq<Member>, v: Value, back: seq<Member>, name: Str)
    requires forall i :: 0 <= i < |back| ==> back[i].key != name
    ensures LastNamed(back, name) == None
    ensures LastNamed(front + [Member(name, v)] + back, name) == Some(v)
    decreases |front| + |back|
  {
    var all := front + [Member(name, v)] + back;
    if front == [] {
      if back != [] {
        LastNamedIsLast([], v, back[1..], name);
      }
      assert all[1..] == back;
    } else {
      LastNamedIsLast(front[1..], v, back, name);
      assert all[1..] == front[1..] + [Member(name, v)] + back;
    }
  }

  lemma {:induction false} EncodedIsWellFormed(core: Value, wraps: seq<Wrap>)
    requires WellFormed(core) && AllProper(wraps)
    ensures WellFormed(Encoded(core, wraps))
    decreases |wraps|
  {
    if wraps != [] {
      EncodedIsWellFormed(core, wraps[1..]);
      assert Proper(wraps[0]);
    }
  }

  /** A text says what its value says, the empty id included. */
  lemma StringifyingKeepsTheId(v: Value)
    requires WellFormed(v)
    ensures LaunchedId(String(Stringify(v))) == LaunchedId(v)
  {
    ParseStringify(v);
  }

  lemma EnvelopeId(v: Value, wrap: Wrap)
    requires wrap.Enveloped? && Proper(wrap) && WellFormed(v)
    ensures LaunchedId(Wrapped(v, wrap)) ==
      if LaunchedId(v) == None || LaunchedId(v) == Some([]) then FirstId(wrap.after) else LaunchedId(v)
  {
    hide Weight, WellFormed, Stringify, Parse;
    var block := TextBlock(wrap.front, Stringify(v), wrap.back);
    ParseStringify(v);
    LastNamedIsLast(wrap.front, String(Stringify(v)), wrap.back, TEXT);
    assert BlockId(block) == LaunchedId(v);
    FirstIdSkips(wrap.before, [block] + wrap.after);
    assert wrap.before + [block] + wrap.after == wrap.before + ([block] + wrap.after);
    assert ([block] + wrap.after)[1..] == wrap.after;
  }

  /** However often a result is stringified and put into envelopes, its id stays. */
  lemma {:induction false} EncodingKeepsTheId(core: Value, wraps: seq<Wrap>)
    requires WellFormed(core) && AllProper(wraps)
    requires LaunchedId(core).Some? && LaunchedId(core) != Some([])
    ensures LaunchedId(Encoded(core, wraps)) == LaunchedId(core)
    decreases |wraps|
  {
    if wraps != [] {
      EncodingKeepsTheId(core, wraps[1..]);
      EncodedIsWellFormed(core, wraps[1..]);
      var inner := Encoded(core, wraps[1..]);
      assert Proper(wraps[0]);
      if wraps[0].Stringified? {
        StringifyingKeepsTheId(inner);
      } else {
        EnvelopeId(inner, wraps[0]);
      }
    }
  }

  predicate NothingBehind(wraps: seq<Wrap>) {
    forall i :: 0 <= i < |wraps| ==> wraps[i].Enveloped? ==> AllPassedOver(wraps[i].after)
  }

  predicate TextsOnly(wraps: seq<Wrap>) { forall i :: 0 <= i < |wraps| ==> wraps[i].Stringified? }

  /** With no other id around, only an empty id in an envelope is lost: line 1664 tests it for truth. */
  lemma {:induction false} OnlyTheEmptyIdIsLost(core: Value, wraps: seq<Wrap>)
    requires WellFormed(core) && AllProper(wraps) && NothingBehind(wraps)
    ensures LaunchedId(Encoded(core, wraps)) == LaunchedId(core) <==>
      LaunchedId(core) != Some([]) || TextsOnly(wraps)
    ensures LaunchedId(Encoded(core, wraps)) == LaunchedId(core) || LaunchedId(Encoded(core, wraps)) == None
    decreases |wraps|
  {
    if wraps != [] {
      OnlyTheEmptyIdIsLost(core, wraps[1..]);
      EncodedIsWellFormed(core, wraps[1..]);
      var inner := Encoded(core, wraps[1..]);
      assert Proper(wraps[0]);
      assert TextsOnly(wraps) <==> wraps[0].Stringified? && TextsOnly(wraps[1..]);
      if wraps[0].Stringified? {
        StringifyingKeepsTheId(inner);
      } else {
        EnvelopeId(inner, wraps[0]);
        assert AllPassedOver(wraps[0].after);
        FirstIdSkips(wraps[0].after, []);
        assert wraps[0].after + [] == wraps[0].after;
      }
    }
  }
}
