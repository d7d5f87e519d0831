/**
 The query of a request (frontend/src/api.ts:144-147, 1026-1034), in bytes of UTF-8. What is written
 is percent-encoded (section 2.1 of RFC 3986); what is read back follows the URL standard's
 application/x-www-form-urlencoded parser.
 */
module Urls {
  import opened Wrappers
  import opened Splits

  newtype Byte = x: int | 0 <= x < 256

  type Bytes = seq<Byte>

  const QUESTION: Byte := 0x3F
  const AMPERSAND: Byte := 0x26
  const EQUALS: Byte := 0x3D
  const PERCENT: Byte := 0x25
  const PLUS: Byte := 0x2B
  const SPACE: Byte := 0x20
  const HASH: Byte := 0x23

  function Ascii(s: string): (bytes: Bytes)
    requires forall i :: 0 <= i < |s| ==> s[i] as int < 128
    ensures |bytes| == |s| && forall i :: 0 <= i < |s| ==> bytes[i] as int == s[i] as int
  {
    seq(|s|, i requires 0 <= i < |s| => s[i] as int as Byte)
  }

  const WORKBENCH: Bytes := Ascii("workbench")
  const TRUE: Bytes := Ascii("true")
  const FALSE: Bytes := Ascii("false")

  type Pair = (Bytes, Bytes)

  // --- encoding ---

  predicate IsAlphanumeric(b: Byte) { 0x30 <= b <= 0x39 || 0x41 <= b <= 0x5A || 0x61 <= b <= 0x7A }

  /** What encodeURIComponent leaves alone: letters, digits and - _ . ! ~ * ' ( ) */
  predicate InComponent(b: Byte) {
    IsAlphanumeric(b) || b == 0x2D || b == 0x5F || b == 0x2E || b == 0x21 || b == 0x7E ||
    b == 0x2A || b == 0x27 || b == 0x28 || b == 0x29
  }

  /** What URLSearchParams leaves alone: letters, digits and * - . _ */
  predicate InForm(b: Byte) {
    IsAlphanumeric(b) || b == 0x2A || b == 0x2D || b == 0x2E || b == 0x5F
  }

  function HexDigit(n: int): (b: Byte)
    requires 0 <= n < 16
    ensures HexValue(b) == Some(n) && IsAlphanumeric(b)
  {
    if n < 10 then (0x30 + n) as Byte else (0x41 + n - 10) as Byte
  }

  function HexValue(b: Byte): Option<int> {
    if 0x30 <= b <= 0x39 then Some(b as int - 0x30)
    else if 0x41 <= b <= 0x46 then Some(b as int - 0x41 + 10)
    else if 0x61 <= b <= 0x66 then Some(b as int - 0x61 + 10)
    else None
  }

  function Percent(b: Byte): Bytes { [PERCENT, HexDigit(b as int / 16), HexDigit(b as int % 16)] }

  function ComponentByte(b: Byte): Bytes { if InComponent(b) then [b] else Percent(b) }

  function FormByte(b: Byte): Bytes {
    if b == SPACE then [PLUS] else if InForm(b) then [b] else Percent(b)
  }

  /** encodeURIComponent */
  function EncodedComponent(s: Bytes): Bytes {
    if s == [] then [] else ComponentByte(s[0]) + EncodedComponent(s[1..])
  }

  function EncodedForm(s: Bytes): Bytes {
    if s == [] then [] else FormByte(s[0]) + EncodedForm(s[1..])
  }

  function PairText(pair: Pair): Bytes { EncodedForm(pair.0) + [EQUALS] + EncodedForm(pair.1) }

  /** URLSearchParams.toString */
  function FormText(pairs: seq<Pair>): Bytes {
    if pairs == [] then []
    else if |pairs| == 1 then PairText(pairs[0])
    else PairText(pairs[0]) + [AMPERSAND] + FormText(pairs[1..])
  }

  // --- query and inWorkbench ---

  /** A number comes with its decimal text. */
  datatype Parameter = Undefined | Text(text: Bytes) | Number(lexeme: Bytes) | Flag(on: bool)

  function StringOf(p: Parameter): Bytes {
    match p
    case Undefined => []
    case Text(text) => text
    case Number(lexeme) => lexeme
    case Flag(on) => if on then TRUE else FALSE
  }

  predicate IsDropped(p: Parameter) { p == Undefined || p == Text([]) || p == Flag(false) }

  /** The parameters that are sent, in order, as text. */
  function Sent(params: seq<(Bytes, Parameter)>): seq<Pair> {
    if params == [] then []
    else
      (if IsDropped(params[0].1) then [] else [(params[0].0, StringOf(params[0].1))]) + Sent(params[1..])
  }

  /** URLSearchParams.set: the first pair of this name gets the value and the others go. */
  function Set(pairs: seq<Pair>, key: Bytes, value: Bytes): seq<Pair> {
    if pairs == [] then [(key, value)]
    else if pairs[0].0 == key then [(key, value)] + Without(pairs[1..], key)
    else [pairs[0]] + Set(pairs[1..], key, value)
  }

  function Without(pairs: seq<Pair>, key: Bytes): seq<Pair> {
    if pairs == [] then []
    else (if pairs[0].0 == key then [] else [pairs[0]]) + Without(pairs[1..], key)
  }

  /** A record has each key once. */
  predicate IsRecord(params: seq<(Bytes, Parameter)>) {
    forall i, j :: 0 <= i < j < |params| ==> params[i].0 != params[j].0
  }

  function QueryText(params: seq<(Bytes, Parameter)>): Bytes {
    if Sent(params) == [] then [] else [QUESTION] + FormText(Sent(params))
  }

  lemma {:induction false} SetAppends(pairs: seq<Pair>, key: Bytes, value: Bytes)
    requires forall i :: 0 <= i < |pairs| ==> pairs[i].0 != key
    ensures Set(pairs, key, value) == pairs + [(key, value)]
  {
    if pairs != [] {
      SetAppends(pairs[1..], key, value);
      assert pairs == [pairs[0]] + pairs[1..];
    }
  }

  lemma {:induction false} SentOfBoth(params: seq<(Bytes, Parameter)>, more: seq<(Bytes, Parameter)>)
    ensures Sent(params + more) == Sent(params) + Sent(more)
  {
    if params == [] {
      assert params + more == more;
    } else {
      assert (params + more)[1..] == params[1..] + more;
      SentOfBoth(params[1..], more);
    }
  }

  method Query(params: seq<(Bytes, Parameter)>) returns (text: Bytes)
    requires IsRecord(params)
    ensures text == QueryText(params)
  {
    var search: seq<Pair> := [];
    for k := 0 to |params|
      invariant search == Sent(params[..k])
      invariant forall i :: 0 <= i < |search| ==> exists j :: 0 <= j < k && search[i].0 == params[j].0
    {
      var (key, value) := params[k];
      assert params[..k + 1] == params[..k] + [params[k]];
      SentOfBoth(params[..k], [params[k]]);
      if value == Undefined || value == Text([]) || value == Flag(false) {
        continue;
      }
      SetAppends(search, key, StringOf(value));
      search := Set(search, key, StringOf(value));
    }
    assert params[..|params|] == params;
    var encoded := FormText(search);
    FormTextIsEmpty(search);
    text := if encoded != [] then [QUESTION] + encoded else [];
  }

  lemma FormTextIsEmpty(pairs: seq<Pair>)
    ensures FormText(pairs) == [] <==> pairs == []
  {
  }

  function WorkbenchText(workbench: Bytes): Bytes { WORKBENCH + [EQUALS] + EncodedComponent(workbench) }

  function InWorkbench(path: Bytes, workbench: Bytes): Bytes {
    if workbench == [] then path
    else
      path + [if QUESTION in path then AMPERSAND else QUESTION] + WorkbenchText(workbench)
  }

  // --- reading it back ---

  /** What a server takes for the query: everything behind the first question mark. */
  function QueryOf(url: Bytes): Option<Bytes> {
    if url == [] then None
    else if url[0] == QUESTION then Some(url[1..])
    else QueryOf(url[1..])
  }

  /** A plus is a space; a percent sign without two digits behind it stays. */
  function Decoded(s: Bytes): Bytes {
    if s == [] then []
    else if s[0] == PLUS then [SPACE] + Decoded(s[1..])
    else if s[0] == PERCENT && |s| >= 3 && HexValue(s[1]).Some? && HexValue(s[2]).Some? then
      var n := HexValue(s[1]).value * 16 + HexValue(s[2]).value;
      (if 0 <= n < 256 then [n as Byte] else []) + Decoded(s[3..])
    else [s[0]] + Decoded(s[1..])
  }

  function IndexOf(s: Bytes, b: Byte): (k: nat)
    ensures k <= |s|
  {
    if s == [] || s[0] == b then 0 else 1 + IndexOf(s[1..], b)
  }

  function ReadPair(piece: Bytes): Pair {
    var k := IndexOf(piece, EQUALS);
    (Decoded(piece[..k]), if k == |piece| then [] else Decoded(piece[k + 1..]))
  }

  function ReadPairs(pieces: seq<Bytes>): seq<Pair> {
    if pieces == [] then []
    else (if pieces[0] == [] then [] else [ReadPair(pieces[0])]) + ReadPairs(pieces[1..])
  }

  /** The pairs of a query, in order. */
  function ReadForm(query: Bytes): seq<Pair> { ReadPairs(Split(query, AMPERSAND)) }

  /** The fragment is not sent. */
  function WithoutFragment(url: Bytes): Bytes { url[..IndexOf(url, HASH)] }

  function ReadUrl(url: Bytes): seq<Pair> {
    match QueryOf(WithoutFragment(url))
    case Some(query) => ReadForm(query)
    case None => []
  }

  // --- the round trip ---

  /** A byte of encoded text: none of them means anything to a URL or to a form. */
  predicate IsPlain(b: Byte) { b != AMPERSAND && b != EQUALS && b != QUESTION && b != HASH }

  predicate AllPlain(s: Bytes) { forall i :: 0 <= i < |s| ==> IsPlain(s[i]) }

  lemma PercentDecodes(b: Byte, rest: Bytes)
    ensures Decoded(Percent(b) + rest) == [b] + Decoded(rest)
    ensures AllPlain(Percent(b))
  {
    hide HexValue;
    var s := Percent(b) + rest;
    assert s[3..] == rest;
    assert s[0] == PERCENT && s[1] == HexDigit(b as int / 16) && s[2] == HexDigit(b as int % 16);
    assert (b as int / 16) * 16 + b as int % 16 == b as int;
  }

  lemma FormByteDecodes(b: Byte, rest: Bytes)
    ensures Decoded(FormByte(b) + rest) == [b] + Decoded(rest)
    ensures AllPlain(FormByte(b))
  {
    hide Percent;
    PercentDecodes(b, rest);
    assert ([b] + rest)[1..] == rest && ([PLUS] + rest)[1..] == rest;
  }

  lemma ComponentByteDecodes(b: Byte, rest: Bytes)
    ensures Decoded(ComponentByte(b) + rest) == [b] + Decoded(rest)
    ensures AllPlain(ComponentByte(b))
  {
    hide Percent;
    PercentDecodes(b, rest);
    assert ([b] + rest)[1..] == rest;
  }

  lemma {:induction false} FormRoundTrip(s: Bytes)
    ensures Decoded(EncodedForm(s)) == s && AllPlain(EncodedForm(s))
  {
    hide FormByte, Decoded;
    if s != [] {
      FormByteDecodes(s[0], EncodedForm(s[1..]));
      FormRoundTrip(s[1..]);
      assert s == [s[0]] + s[1..];
    } else {
      NothingDecodes();
    }
  }

  lemma NothingDecodes()
    ensures Decoded([]) == []
  {
  }

  lemma {:induction false} ComponentRoundTrip(s: Bytes)
    ensures Decoded(EncodedComponent(s)) == s && AllPlain(EncodedComponent(s))
  {
    hide ComponentByte, Decoded;
    if s != [] {
      ComponentByteDecodes(s[0], EncodedComponent(s[1..]));
      ComponentRoundTrip(s[1..]);
      assert s == [s[0]] + s[1..];
    } else {
      NothingDecodes();
    }
  }

  lemma {:induction false} EqualsIsFound(key: Bytes, rest: Bytes)
    requires AllPlain(key)
    ensures IndexOf(key + [EQUALS] + rest, EQUALS) == |key|
  {
    var s := key + [EQUALS] + rest;
    if key != [] {
      assert IsPlain(key[0]);
      assert s[1..] == key[1..] + [EQUALS] + rest;
      EqualsIsFound(key[1..], rest);
    }
  }

  lemma ReadPairSplits(key: Bytes, value: Bytes)
    requires AllPlain(key)
    ensures ReadPair(key + [EQUALS] + value) == (Decoded(key), Decoded(value))
  {
    hide Decoded, IndexOf;
    var s := key + [EQUALS] + value;
    EqualsIsFound(key, value);
    assert s[..|key|] == key && s[|key| + 1..] == value;
  }

  lemma PairRoundTrip(pair: Pair)
    ensures ReadPair(PairText(pair)) == pair
    ensures AMPERSAND !in PairText(pair) && QUESTION !in PairText(pair) && HASH !in PairText(pair)
    ensures PairText(pair) != []
  {
    hide ReadPair, Decoded, EncodedForm;
    FormRoundTrip(pair.0);
    FormRoundTrip(pair.1);
    ReadPairSplits(EncodedForm(pair.0), EncodedForm(pair.1));
    forall b | b == AMPERSAND || b == QUESTION || b == HASH ensures b !in PairText(pair) {
      assert b !in EncodedForm(pair.0) && b !in EncodedForm(pair.1);
    }
  }

  lemma {:induction false} ReadPairsOfBoth(pieces: seq<Bytes>, more: seq<Bytes>)
    ensures ReadPairs(pieces + more) == ReadPairs(pieces) + ReadPairs(more)
  {
    hide ReadPair;
    if pieces == [] {
      assert pieces + more == more;
    } else {
      assert (pieces + more)[1..] == pieces[1..] + more;
      ReadPairsOfBoth(pieces[1..], more);
    }
  }

  lemma ReadFormOfBoth(s: Bytes, t: Bytes)
    ensures ReadForm(s + [AMPERSAND] + t) == ReadForm(s) + ReadForm(t)
  {
    SplitAtSeparator(s, t, AMPERSAND);
    ReadPairsOfBoth(Split(s, AMPERSAND), Split(t, AMPERSAND));
  }

  lemma ReadFormOfPair(pair: Pair)
    ensures ReadForm(PairText(pair)) == [pair]
  {
    hide ReadPair, PairText;
    PairRoundTrip(pair);
    SplitWithout(PairText(pair), AMPERSAND);
    assert ReadPairs([PairText(pair)][1..]) == [];
  }

  lemma {:induction false} FormTextRoundTrip(pairs: seq<Pair>)
    ensures ReadForm(FormText(pairs)) == pairs
    ensures HASH !in FormText(pairs)
  {
    hide PairText;
    if pairs == [] {
      assert Split([], AMPERSAND) == [[]];
      assert ReadPairs([[]][1..]) == [];
    } else {
      PairRoundTrip(pairs[0]);
      ReadFormOfPair(pairs[0]);
      FormTextRoundTrip(pairs[1..]);
      if |pairs| > 1 {
        hide ReadForm;
        ReadFormOfBoth(PairText(pairs[0]), FormText(pairs[1..]));
        assert pairs == [pairs[0]] + pairs[1..];
      } else {
        assert pairs == [pairs[0]];
      }
    }
  }

  lemma {:induction false} QueryIsFound(path: Bytes, query: Bytes)
    requires QUESTION !in path
    ensures QueryOf(path + [QUESTION] + query) == Some(query)
  {
    var url := path + [QUESTION] + query;
    if path == [] {
      assert url[1..] == query;
    } else {
      assert url[1..] == path[1..] + [QUESTION] + query;
      QueryIsFound(path[1..], query);
    }
  }

  lemma {:induction false} NoQueryIsFound(path: Bytes)
    requires QUESTION !in path
    ensures QueryOf(path) == None
  {
    if path != [] {
      NoQueryIsFound(path[1..]);
    }
  }

  lemma {:induction false} IndexOfNone(s: Bytes, b: Byte)
    requires b !in s
    ensures IndexOf(s, b) == |s|
  {
    if s != [] {
      IndexOfNone(s[1..], b);
    }
  }

  lemma {:induction false} IndexOfFirst(s: Bytes, t: Bytes, b: Byte)
    requires b in s
    ensures IndexOf(s + t, b) == IndexOf(s, b) < |s|
  {
    if s[0] != b {
      assert (s + t)[1..] == s[1..] + t;
      IndexOfFirst(s[1..], t, b);
    }
  }

  lemma NoFragment(url: Bytes)
    requires HASH !in url
    ensures WithoutFragment(url) == url
  {
    IndexOfNone(url, HASH);
  }

  lemma QueryGrows(path: Bytes, tail: Bytes)
    requires HASH !in path && HASH !in tail
    ensures ReadUrl(path + [if QUESTION in path then AMPERSAND else QUESTION] + tail) ==
      ReadUrl(path) + ReadForm(tail)
  {
    hide ReadForm, QueryOf, WithoutFragment;
    NoFragment(path);
    if QUESTION in path {
      var head, query := SplitUrl(path);
      var longer := query + [AMPERSAND] + tail;
      QueryIsFound(head, query);
      QueryIsFound(head, longer);
      ReadFormOfBoth(query, tail);
      assert path + [AMPERSAND] + tail == head + [QUESTION] + longer;
      NoFragment(head + [QUESTION] + longer);
    } else {
      NoQueryIsFound(path);
      QueryIsFound(path, tail);
      NoFragment(path + [QUESTION] + tail);
    }
  }

  /**
   Appending the workbench adds one pair to whatever query the path has and changes nothing else,
   unless the path has a fragment, which would take it in.
   */
  lemma WorkbenchIsOneMorePair(path: Bytes, workbench: Bytes)
    requires workbench != []
    ensures ReadUrl(InWorkbench(path, workbench)) == ReadUrl(path) + [(WORKBENCH, workbench)] <==> HASH !in path
  {
    hide ReadForm, QueryOf, EncodedComponent;
    var tail := WorkbenchText(workbench);
    var mark := if QUESTION in path then AMPERSAND else QUESTION;
    assert InWorkbench(path, workbench) == path + [mark] + tail;
    if HASH in path {
      assert path + [mark] + tail == path + ([mark] + tail);
      IndexOfFirst(path, [mark] + tail, HASH);
      assert WithoutFragment(InWorkbench(path, workbench)) == WithoutFragment(path);
      assert |ReadUrl(path) + [(WORKBENCH, workbench)]| > |ReadUrl(path)|;
    } else {
      WorkbenchReadsBack(workbench);
      QueryGrows(path, tail);
    }
  }

  lemma {:induction false} SplitUrl(url: Bytes) returns (path: Bytes, query: Bytes)
    requires QUESTION in url
    ensures url == path + [QUESTION] + query && QUESTION !in path
  {
    if url[0] == QUESTION {
      path, query := [], url[1..];
    } else {
      path, query := SplitUrl(url[1..]);
      path := [url[0]] + path;
    }
  }

  lemma WorkbenchReadsBack(workbench: Bytes)
    ensures ReadForm(WorkbenchText(workbench)) == [(WORKBENCH, workbench)]
    ensures HASH !in WorkbenchText(workbench)
  {
    hide ReadPair, EncodedComponent, Decoded;
    var tail := WorkbenchText(workbench);
    ComponentRoundTrip(workbench);
    assert AllPlain(WORKBENCH);
    ReadPairSplits(WORKBENCH, EncodedComponent(workbench));
    LettersDecode();
    assert AMPERSAND !in tail;
    SplitWithout(tail, AMPERSAND);
    assert ReadPairs([tail][1..]) == [];
  }

  lemma LettersDecode()
    ensures Decoded(WORKBENCH) == WORKBENCH
  {
    hide Decoded, EncodedForm;
    FormRoundTrip(WORKBENCH);
    LettersStay(WORKBENCH);
  }

  lemma {:induction false} LettersStay(s: Bytes)
    requires forall i :: 0 <= i < |s| ==> IsAlphanumeric(s[i])
    ensures EncodedForm(s) == s
  {
    if s != [] {
      LettersStay(s[1..]);
      assert s == [s[0]] + s[1..];
    }
  }

  /** These are the parameters that say something, in order, each as text. */
  predicate Sends(params: seq<(Bytes, Parameter)>, pairs: seq<Pair>) {
    if params == [] then pairs == []
    else
      var (key, value) := params[0];
      match value
      case Undefined => Sends(params[1..], pairs)
      case Flag(on) =>
        if on then pairs != [] && pairs[0] == (key, Ascii("true")) && Sends(params[1..], pairs[1..])
        else Sends(params[1..], pairs)
      case Text(text) =>
        if text == [] then Sends(params[1..], pairs)
        else pairs != [] && pairs[0] == (key, text) && Sends(params[1..], pairs[1..])
      case Number(lexeme) => pairs != [] && pairs[0] == (key, lexeme) && Sends(params[1..], pairs[1..])
  }

  lemma {:induction false} SentIsWhatIsSaid(params: seq<(Bytes, Parameter)>)
    ensures Sends(params, Sent(params))
  {
    if params != [] {
      SentIsWhatIsSaid(params[1..]);
      if !IsDropped(params[0].1) {
        assert Sent(params)[1..] == Sent(params[1..]);
      } else {
        assert Sent(params) == Sent(params[1..]);
      }
    }
  }

  /** What a server reads from a request is what the caller sent, and the workbench if there is one. */
  lemma UrlRoundTrip(path: Bytes, params: seq<(Bytes, Parameter)>, workbench: Bytes) returns (pairs: seq<Pair>)
    requires QUESTION !in path && HASH !in path
    ensures Sends(params, pairs)
    ensures ReadUrl(InWorkbench(path + QueryText(params), workbench)) ==
      pairs + (if workbench == [] then [] else [(Ascii("workbench"), workbench)])
  {
    hide ReadForm, InWorkbench, FormText, QueryOf, Ascii;
    pairs := Sent(params);
    SentIsWhatIsSaid(params);
    var url := path + QueryText(params);
    if pairs == [] {
      NoQueryIsFound(path);
      NoFragment(path);
      assert url == path;
    } else {
      FormTextRoundTrip(pairs);
      QueryIsFound(path, FormText(pairs));
      assert url == path + [QUESTION] + FormText(pairs);
      NoFragment(url);
    }
    if workbench == [] {
      NoWorkbench(url);
    } else {
      WorkbenchIsOneMorePair(url, workbench);
    }
  }

  lemma NoWorkbench(path: Bytes)
    ensures InWorkbench(path, []) == path
  {
  }
}
