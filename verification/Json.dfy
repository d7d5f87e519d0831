/**
 JSON texts and values, as JSON.parse and JSON.stringify see them (RFC 8259): strings are
 sequences of UTF-16 code units, an object is its members in the order they were written,
 and the last of several members with one name counts. A number is kept as it was written.
 */
module Json {
  import opened Wrappers

  newtype Unit = x: int | 0 <= x < 0x10000

  type Str = seq<Unit>

  /** The units of a text without characters beyond the basic plane. */
  function Units(s: string): (units: Str)
    requires forall i :: 0 <= i < |s| ==> s[i] as int < 0x10000
    ensures |units| == |s| && forall i :: 0 <= i < |s| ==> units[i] as int == s[i] as int
  {
    seq(|s|, i requires 0 <= i < |s| => s[i] as int as Unit)
  }

  datatype Value =
    | Null
    | Bool(b: bool)
    | Number(lexeme: Str)
    | String(s: Str)
    | Array(items: seq<Value>)
    | Object(members: seq<Member>)

  datatype Member = Member(key: Str, value: Value)

  const QUOTE: Unit := 0x22
  const BACKSLASH: Unit := 0x5C
  const COMMA: Unit := 0x2C
  const COLON: Unit := 0x3A
  const MINUS: Unit := 0x2D
  const PLUS: Unit := 0x2B
  const DOT: Unit := 0x2E
  const OPEN_ARRAY: Unit := 0x5B
  const CLOSE_ARRAY: Unit := 0x5D
  const OPEN_OBJECT: Unit := 0x7B
  const CLOSE_OBJECT: Unit := 0x7D

  const NULL: Str := [0x6E, 0x75, 0x6C, 0x6C]
  const TRUE: Str := [0x74, 0x72, 0x75, 0x65]
  const FALSE: Str := [0x66, 0x61, 0x6C, 0x73, 0x65]

  // --- weight ---

  /** A string counts its content and its two quotes, a container its brackets and what it holds. */
  function Weight(v: Value): (w: nat)
    ensures w >= 1
  {
    match v
    case String(s) => |s| + 2
    case Array(items) => 2 + Weights(items)
    case Object(members) => 2 + MemberWeights(members)
    case _ => 1
  }

  function Weights(items: seq<Value>): nat {
    if items == [] then 0 else Weight(items[0]) + Weights(items[1..])
  }

  function MemberWeights(members: seq<Member>): nat {
    if members == [] then 0 else Weight(members[0].value) + MemberWeights(members[1..])
  }

  // --- reading ---

  predicate IsSpace(c: Unit) { c == 0x20 || c == 0x09 || c == 0x0A || c == 0x0D }

  predicate IsDigit(c: Unit) { 0x30 <= c <= 0x39 }

  function SkipSpace(s: Str): (rest: Str)
    ensures |rest| <= |s|
    ensures rest != [] ==> !IsSpace(rest[0])
    ensures s != [] && !IsSpace(s[0]) ==> rest == s
  {
    if s != [] && IsSpace(s[0]) then SkipSpace(s[1..]) else s
  }

  function HexValue(c: Unit): Option<int> {
    if IsDigit(c) then Some(c as int - 0x30)
    else if 0x61 <= c <= 0x66 then Some(c as int - 0x61 + 10)
    else if 0x41 <= c <= 0x46 then Some(c as int - 0x41 + 10)
    else None
  }

  /** The unit behind \u, from its four digits. */
  function ReadHex(s: Str): (u: Option<Unit>)
    ensures u.Some? ==> |s| >= 4
  {
    if |s| < 4 then None
    else match (HexValue(s[0]), HexValue(s[1]), HexValue(s[2]), HexValue(s[3]))
      case (Some(a), Some(b), Some(c), Some(d)) =>
        var n := ((a * 16 + b) * 16 + c) * 16 + d;
        if 0 <= n < 0x10000 then Some(n as Unit) else None
      case _ => None
  }

  /** The unit an escape of one letter stands for. */
  function Unescape(c: Unit): Option<Unit> {
    if c == QUOTE || c == BACKSLASH || c == 0x2F then Some(c)
    else if c == 0x62 then Some(0x08)
    else if c == 0x66 then Some(0x0C)
    else if c == 0x6E then Some(0x0A)
    else if c == 0x72 then Some(0x0D)
    else if c == 0x74 then Some(0x09)
    else None
  }

  /** The rest of a string literal, up to and with its closing quote. */
  function ReadChars(s: Str): (r: Option<(Str, Str)>)
    ensures r.Some? ==> |r.value.0| + 1 + |r.value.1| <= |s|
  {
    if s == [] || s[0] < 0x20 then None
    else if s[0] == QUOTE then Some(([], s[1..]))
    else if s[0] != BACKSLASH then Cons(s[0], ReadChars(s[1..]))
    else if |s| < 2 then None
    else if s[1] == 0x75 then
      match ReadHex(s[2..])
      case Some(u) => Cons(u, ReadChars(s[6..]))
      case None => None
    else
      match Unescape(s[1])
      case Some(u) => Cons(u, ReadChars(s[2..]))
      case None => None
  }

  function Cons(u: Unit, r: Option<(Str, Str)>): Option<(Str, Str)> {
    match r
    case Some((chars, rest)) => Some(([u] + chars, rest))
    case None => None
  }

  function Digits(s: Str): (n: nat)
    ensures n <= |s|
  {
    if s != [] && IsDigit(s[0]) then 1 + Digits(s[1..]) else 0
  }

  /** How far a fraction reaches, from its dot; none where there is no dot. */
  function FractionLength(s: Str): (n: Option<nat>)
    ensures n.Some? ==> n.value <= |s|
  {
    if s == [] || s[0] != DOT then Some(0)
    else if Digits(s[1..]) == 0 then None
    else Some(1 + Digits(s[1..]))
  }

  function ExponentLength(s: Str): (n: Option<nat>)
    ensures n.Some? ==> n.value <= |s|
  {
    if s == [] || (s[0] != 0x65 && s[0] != 0x45) then Some(0)
    else
      var sign := if |s| > 1 && (s[1] == PLUS || s[1] == MINUS) then 1 else 0;
      var digits := Digits(s[1 + sign..]);
      if digits == 0 then None else Some(1 + sign + digits)
  }

  /** How much of s is its integer part: one zero, or digits that do not start with one. */
  function IntegerLength(s: Str): (n: nat)
    ensures n <= |s|
  {
    if s != [] && s[0] == 0x30 then 1 else Digits(s)
  }

  function NumberLength(s: Str): (n: Option<nat>)
    ensures n.Some? ==> 0 < n.value <= |s|
  {
    var sign := if s != [] && s[0] == MINUS then 1 else 0;
    var whole := IntegerLength(s[sign..]);
    if whole == 0 then None
    else
      match FractionLength(s[sign + whole..])
      case None => None
      case Some(fraction) =>
        match ExponentLength(s[sign + whole + fraction..])
        case None => None
        case Some(exponent) => Some(sign + whole + fraction + exponent)
  }

  function ReadLiteral(s: Str, literal: Str, v: Value): (r: Option<(Value, Str)>)
    ensures r.Some? ==> r.value.0 == v && |literal| + |r.value.1| == |s|
  {
    if literal <= s then Some((v, s[|literal|..])) else None
  }

  /** One value at the front of s, and what follows it. It weighs no more than what it took. */
  function ReadValue(s: Str): (r: Option<(Value, Str)>)
    ensures r.Some? ==> Weight(r.value.0) + |r.value.1| <= |s|
    decreases |s|, 0
  {
    if s == [] then None
    else if s[0] == QUOTE then
      match ReadChars(s[1..])
      case Some((chars, rest)) => Some((String(chars), rest))
      case None => None
    else if s[0] == OPEN_ARRAY then
      var t := SkipSpace(s[1..]);
      if t != [] && t[0] == CLOSE_ARRAY then Some((Array([]), t[1..]))
      else match ReadItems(t)
        case Some((items, rest)) => Some((Array(items), rest))
        case None => None
    else if s[0] == OPEN_OBJECT then
      var t := SkipSpace(s[1..]);
      if t != [] && t[0] == CLOSE_OBJECT then Some((Object([]), t[1..]))
      else match ReadMembers(t)
        case Some((members, rest)) => Some((Object(members), rest))
        case None => None
    else if s[0] == NULL[0] then ReadLiteral(s, NULL, Null)
    else if s[0] == TRUE[0] then ReadLiteral(s, TRUE, Bool(true))
    else if s[0] == FALSE[0] then ReadLiteral(s, FALSE, Bool(false))
    else
      match NumberLength(s)
      case Some(n) => Some((Number(s[..n]), s[n..]))
      case None => None
  }

  /** The items of an array, from the first one to behind the closing bracket. */
  function ReadItems(s: Str): (r: Option<(seq<Value>, Str)>)
    ensures r.Some? ==> Weights(r.value.0) + 1 + |r.value.1| <= |s|
    decreases |s|, 1
  {
    match ReadValue(s)
    case None => None
    case Some((v, t)) =>
      var u := SkipSpace(t);
      if u == [] then None
      else if u[0] == CLOSE_ARRAY then Some(([v], u[1..]))
      else if u[0] != COMMA then None
      else
        match ReadItems(SkipSpace(u[1..]))
        case Some((items, rest)) => Some(([v] + items, rest))
        case None => None
  }

  function ReadMembers(s: Str): (r: Option<(seq<Member>, Str)>)
    ensures r.Some? ==> MemberWeights(r.value.0) + 1 + |r.value.1| <= |s|
    decreases |s|, 1
  {
    if s == [] || s[0] != QUOTE then None
    else
      match ReadChars(s[1..])
      case None => None
      case Some((key, t)) =>
        var u := SkipSpace(t);
        if u == [] || u[0] != COLON then None
        else
          match ReadValue(SkipSpace(u[1..]))
          case None => None
          case Some((v, after)) => AfterMember(Member(key, v), after)
  }

  /** Reading members, past the first one. */
  function AfterMember(first: Member, s: Str): (r: Option<(seq<Member>, Str)>)
    ensures r.Some? ==> MemberWeights(r.value.0) + 1 + |r.value.1| <= Weight(first.value) + |s|
    decreases |s|, 2
  {
    var t := SkipSpace(s);
    if t == [] then None
    else if t[0] == CLOSE_OBJECT then Some(([first], t[1..]))
    else if t[0] != COMMA then None
    else
      match ReadMembers(SkipSpace(t[1..]))
      case Some((members, rest)) => Some(([first] + members, rest))
      case None => None
  }

  /** JSON.parse: one value, and nothing but white space around it. None is the SyntaxError. */
  function Parse(text: Str): (v: Option<Value>)
    ensures v.Some? ==> Weight(v.value) <= |text|
  {
    match ReadValue(SkipSpace(text))
    case Some((v, rest)) => if SkipSpace(rest) == [] then Some(v) else None
    case None => None
  }

  // --- writing ---

  function HexDigit(n: int): (c: Unit)
    requires 0 <= n < 16
    ensures HexValue(c) == Some(n)
  {
    if n < 10 then (0x30 + n) as Unit else (0x61 + n - 10) as Unit
  }

  /** \u and four lower-case digits. */
  function UnicodeEscape(u: Unit): Str {
    var n := u as int;
    var tens := n / 16;
    var hundreds := tens / 16;
    [BACKSLASH, 0x75, HexDigit(hundreds / 16), HexDigit(hundreds % 16), HexDigit(tens % 16), HexDigit(n % 16)]
  }

  predicate IsHigh(u: Unit) { 0xD800 <= u <= 0xDBFF }

  predicate IsLow(u: Unit) { 0xDC00 <= u <= 0xDFFF }

  /** One unit that is not half of a surrogate pair. */
  function Escape(u: Unit): Str {
    if u == QUOTE || u == BACKSLASH then [BACKSLASH, u]
    else if u == 0x08 then [BACKSLASH, 0x62]
    else if u == 0x0C then [BACKSLASH, 0x66]
    else if u == 0x0A then [BACKSLASH, 0x6E]
    else if u == 0x0D then [BACKSLASH, 0x72]
    else if u == 0x09 then [BACKSLASH, 0x74]
    else if u < 0x20 || IsHigh(u) || IsLow(u) then UnicodeEscape(u)
    else [u]
  }

  function Escaped(s: Str): Str {
    if s == [] then []
    else if |s| >= 2 && IsHigh(s[0]) && IsLow(s[1]) then s[..2] + Escaped(s[2..])
    else Escape(s[0]) + Escaped(s[1..])
  }

  function Quoted(s: Str): Str { [QUOTE] + Escaped(s) + [QUOTE] }

  /** JSON.stringify, without indentation. */
  function Stringify(v: Value): Str {
    match v
    case Null => NULL
    case Bool(b) => if b then TRUE else FALSE
    case Number(lexeme) => lexeme
    case String(s) => Quoted(s)
    case Array(items) => [OPEN_ARRAY] + (if items == [] then [CLOSE_ARRAY] else StringifyItems(items))
    case Object(members) => [OPEN_OBJECT] + (if members == [] then [CLOSE_OBJECT] else StringifyMembers(members))
  }

  function StringifyItems(items: seq<Value>): Str
    requires items != []
  {
    Stringify(items[0]) + if |items| == 1 then [CLOSE_ARRAY] else [COMMA] + StringifyItems(items[1..])
  }

  function StringifyMembers(members: seq<Member>): Str
    requires members != []
  {
    Quoted(members[0].key) + [COLON] + Stringify(members[0].value) +
    if |members| == 1 then [CLOSE_OBJECT] else [COMMA] + StringifyMembers(members[1..])
  }

  /** Every number in it is written as one. */
  predicate WellFormed(v: Value) {
    match v
    case Number(lexeme) => NumberLength(lexeme) == Some(|lexeme|)
    case Array(items) => forall i :: 0 <= i < |items| ==> WellFormed(items[i])
    case Object(members) => forall i :: 0 <= i < |members| ==> WellFormed(members[i].value)
    case _ => true
  }

  // --- where reading stops ---

  /** What can follow a value inside a text: nothing, or a unit no value goes on with. */
  predicate Ends(rest: Str) {
    rest == [] || IsSpace(rest[0]) || rest[0] == COMMA || rest[0] == CLOSE_ARRAY || rest[0] == CLOSE_OBJECT
  }

  lemma Regrouped(a: Str, b: Str, c: Str, d: Str)
    ensures a + b + c + d == a + (b + c + d)
    ensures a + b + c + d == a + (b + (c + d))
  {
  }

  lemma {:induction false} DigitsStop(s: Str, rest: Str)
    requires rest == [] || !IsDigit(rest[0])
    ensures Digits(s + rest) == Digits(s)
  {
    if s == [] {
      assert s + rest == rest;
    } else {
      assert (s + rest)[1..] == s[1..] + rest;
      DigitsStop(s[1..], rest);
    }
  }

  /** The first unit of a value's text tells it from white space and from a closing bracket. */
  predicate Opens(s: Str) {
    s != [] && !IsSpace(s[0]) && s[0] != CLOSE_ARRAY && s[0] != CLOSE_OBJECT
  }
}
