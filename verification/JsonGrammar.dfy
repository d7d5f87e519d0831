/**
 The grammar of JSON texts (RFC 8259), as trees with a text and a meaning each: white space around
 every token, every form of a character in a string, every form of a number. The reader accepts the
 texts of these trees and no others, and finds the value each of them means.
 */
module JsonGrammar {
  import opened Json
  import opened Wrappers

  function At(c: char): (u: Unit)
    requires c as int < 0x10000
    ensures u as int == c as int
  {
    c as int as Unit
  }

  // --- white space, section 2 ---

  predicate IsBlank(s: Str) {
    forall i :: 0 <= i < |s| ==> s[i] == At(' ') || s[i] == At('\t') || s[i] == At('\n') || s[i] == At('\r')
  }

  // --- numbers, section 6 ---

  datatype Exponent = Exponent(mark: Unit, sign: Str, digits: Str)

  datatype Numeral = Numeral(minus: bool, whole: Str, fraction: Option<Str>, exponent: Option<Exponent>)

  predicate AreDigits(s: Str) {
    s != [] && forall i :: 0 <= i < |s| ==> At('0') <= s[i] <= At('9')
  }

  predicate IsExponent(e: Exponent) {
    (e.mark == At('e') || e.mark == At('E')) &&
    (e.sign == [] || e.sign == [At('+')] || e.sign == [At('-')]) && AreDigits(e.digits)
  }

  predicate IsNumeral(n: Numeral) {
    AreDigits(n.whole) && (n.whole[0] == At('0') ==> |n.whole| == 1) &&
    (n.fraction.Some? ==> AreDigits(n.fraction.value)) &&
    (n.exponent.Some? ==> IsExponent(n.exponent.value))
  }

  function FractionText(fraction: Option<Str>): Str {
    match fraction
    case None => []
    case Some(digits) => [At('.')] + digits
  }

  function ExponentText(exponent: Option<Exponent>): Str {
    match exponent
    case None => []
    case Some(e) => [e.mark] + e.sign + e.digits
  }

  function NumeralText(n: Numeral): Str {
    (if n.minus then [At('-')] else []) + n.whole + FractionText(n.fraction) + ExponentText(n.exponent)
  }

  // --- strings, section 7 ---

  /** A unit as it is, behind a backslash as one letter, or behind one as u and four digits. */
  datatype Lit = Plain(u: Unit) | Short(letter: Unit, u: Unit) | Hex(digits: Str, u: Unit)

  predicate IsHexDigit(c: Unit, n: int) {
    0 <= n < 16 && (c == At("0123456789abcdef"[n]) || c == At("0123456789ABCDEF"[n]))
  }

  predicate IsShort(letter: Unit, u: Unit) {
    (letter == u && (u == At('\"') || u == At('\\') || u == At('/'))) ||
    (letter == At('b') && u == 0x08) || (letter == At('f') && u == 0x0C) || (letter == At('n') && u == At('\n')) ||
    (letter == At('r') && u == At('\r')) || (letter == At('t') && u == At('\t'))
  }

  predicate IsLit(lit: Lit) {
    match lit
    case Plain(u) => u >= 0x20 && u != At('\"') && u != At('\\')
    case Short(letter, u) => IsShort(letter, u)
    case Hex(digits, u) =>
      var n := u as int;
      |digits| == 4 && IsHexDigit(digits[0], n / 4096) && IsHexDigit(digits[1], n / 256 % 16) &&
      IsHexDigit(digits[2], n / 16 % 16) && IsHexDigit(digits[3], n % 16)
  }

  predicate AreLits(lits: seq<Lit>) { forall i :: 0 <= i < |lits| ==> IsLit(lits[i]) }

  function LitText(lit: Lit): Str {
    match lit
    case Plain(u) => [u]
    case Short(letter, _) => [At('\\'), letter]
    case Hex(digits, _) => [At('\\'), At('u')] + digits
  }

  function LitsText(lits: seq<Lit>): Str {
    if lits == [] then [] else LitText(lits[0]) + LitsText(lits[1..])
  }

  function LitsUnits(lits: seq<Lit>): Str {
    if lits == [] then [] else [lits[0].u] + LitsUnits(lits[1..])
  }

  function StringText(lits: seq<Lit>): Str { [At('\"')] + LitsText(lits) + [At('\"')] }

  // --- values, sections 3 to 5 ---

  datatype Tree =
    | NullTree
    | BoolTree(b: bool)
    | NumberTree(n: Numeral)
    | StringTree(lits: seq<Lit>)
    | EmptyArray(blank: Str)
    | ArrayTree(elements: Elements)
    | EmptyObject(blank: Str)
    | ObjectTree(pairs: Pairs)

  datatype Element = Element(before: Str, tree: Tree, after: Str)

  datatype Elements = LastElement(element: Element) | MoreElements(element: Element, more: Elements)

  datatype Pair = Pair(before: Str, name: seq<Lit>, between: Str, element: Element)

  datatype Pairs = LastPair(pair: Pair) | MorePairs(pair: Pair, rest: Pairs)

  predicate IsTree(t: Tree) {
    match t
    case NumberTree(n) => IsNumeral(n)
    case StringTree(lits) => AreLits(lits)
    case EmptyArray(blank) => IsBlank(blank)
    case ArrayTree(elements) => AreElements(elements)
    case EmptyObject(blank) => IsBlank(blank)
    case ObjectTree(pairs) => ArePairs(pairs)
    case _ => true
  }

  predicate IsElement(e: Element) { IsBlank(e.before) && IsTree(e.tree) && IsBlank(e.after) }

  predicate AreElements(es: Elements) {
    IsElement(es.element) && (es.MoreElements? ==> AreElements(es.more))
  }

  predicate IsPair(p: Pair) {
    IsBlank(p.before) && AreLits(p.name) && IsBlank(p.between) && IsElement(p.element)
  }

  predicate ArePairs(ps: Pairs) { IsPair(ps.pair) && (ps.MorePairs? ==> ArePairs(ps.rest)) }

  function TreeText(t: Tree): Str {
    match t
    case NullTree => Units("null")
    case BoolTree(b) => if b then Units("true") else Units("false")
    case NumberTree(n) => NumeralText(n)
    case StringTree(lits) => StringText(lits)
    case EmptyArray(blank) => [At('[')] + blank + [At(']')]
    case ArrayTree(elements) => [At('[')] + ElementsText(elements) + [At(']')]
    case EmptyObject(blank) => [At('{')] + blank + [At('}')]
    case ObjectTree(pairs) => [At('{')] + PairsText(pairs) + [At('}')]
  }

  function ElementText(e: Element): Str { e.before + TreeText(e.tree) + e.after }

  function ElementsText(es: Elements): Str {
    match es
    case LastElement(e) => ElementText(e)
    case MoreElements(e, more) => ElementText(e) + [At(',')] + ElementsText(more)
  }

  function PairText(p: Pair): Str {
    p.before + StringText(p.name) + p.between + [At(':')] + ElementText(p.element)
  }

  function PairsText(ps: Pairs): Str {
    match ps
    case LastPair(p) => PairText(p)
    case MorePairs(p, rest) => PairText(p) + [At(',')] + PairsText(rest)
  }

  function Meaning(t: Tree): Value {
    match t
    case NullTree => Null
    case BoolTree(b) => Bool(b)
    case NumberTree(n) => Number(NumeralText(n))
    case StringTree(lits) => String(LitsUnits(lits))
    case EmptyArray(_) => Array([])
    case ArrayTree(elements) => Array(Meanings(elements))
    case EmptyObject(_) => Object([])
    case ObjectTree(pairs) => Object(Members(pairs))
  }

  function Meanings(es: Elements): seq<Value> {
    match es
    case LastElement(e) => [Meaning(e.tree)]
    case MoreElements(e, more) => [Meaning(e.tree)] + Meanings(more)
  }

  function Members(ps: Pairs): seq<Member> {
    match ps
    case LastPair(p) => [Member(LitsUnits(p.name), Meaning(p.element.tree))]
    case MorePairs(p, rest) => [Member(LitsUnits(p.name), Meaning(p.element.tree))] + Members(rest)
  }

  /** The grammar's JSON-text: a value with white space around it. */
  ghost predicate IsTextOf(text: Str, v: Value) {
    exists e: Element :: IsElement(e) && ElementText(e) == text && Meaning(e.tree) == v
  }

  // --- white space is skipped ---

  lemma {:induction false} BlankIsSkipped(blank: Str, rest: Str)
    requires IsBlank(blank)
    ensures SkipSpace(blank + rest) == SkipSpace(rest)
  {
    if blank == [] {
      assert blank + rest == rest;
    } else {
      assert (blank + rest)[1..] == blank[1..] + rest;
      BlankIsSkipped(blank[1..], rest);
    }
  }

  lemma {:induction false} SkippedIsBlank(s: Str) returns (blank: Str)
    ensures IsBlank(blank) && s == blank + SkipSpace(s)
  {
    if s != [] && IsSpace(s[0]) {
      blank := SkippedIsBlank(s[1..]);
      blank := [s[0]] + blank;
    } else {
      blank := [];
    }
  }

  // --- numbers are read ---

  lemma {:induction false} AllDigits(s: Str)
    requires forall i :: 0 <= i < |s| ==> IsDigit(s[i])
    ensures Digits(s) == |s|
  {
    if s != [] {
      AllDigits(s[1..]);
    }
  }

  lemma {:induction false} DigitsAreDigits(s: Str)
    ensures forall i :: 0 <= i < Digits(s) ==> IsDigit(s[i])
  {
    if s != [] && IsDigit(s[0]) {
      DigitsAreDigits(s[1..]);
      assert forall i :: 0 < i < Digits(s) ==> s[i] == s[1..][i - 1];
    }
  }

  lemma DigitsRead(digits: Str, rest: Str)
    requires AreDigits(digits) && (rest == [] || !IsDigit(rest[0]))
    ensures Digits(digits + rest) == |digits|
  {
    AllDigits(digits);
    DigitsStop(digits, rest);
  }

  lemma ExponentRead(exponent: Option<Exponent>, rest: Str)
    requires (exponent.Some? ==> IsExponent(exponent.value)) && Ends(rest)
    ensures ExponentLength(ExponentText(exponent) + rest) == Some(|ExponentText(exponent)|)
  {
    hide ExponentLength, Digits;
    match exponent
    case None =>
      assert ExponentText(exponent) + rest == rest;
      NoExponent(rest);
    case Some(e) =>
      DigitsRead(e.digits, rest);
      Regrouped([e.mark], e.sign, e.digits, rest);
      MarkedRead(e.mark, e.sign, e.digits + rest);
  }

  lemma NoExponent(rest: Str)
    requires Ends(rest)
    ensures ExponentLength(rest) == Some(0)
  {
  }

  lemma MarkedRead(mark: Unit, sign: Str, behind: Str)
    requires (mark == At('e') || mark == At('E')) && (sign == [] || sign == [At('+')] || sign == [At('-')])
    requires behind != [] && IsDigit(behind[0])
    ensures ExponentLength([mark] + (sign + behind)) == Some(1 + |sign| + Digits(behind))
  {
    var s := [mark] + (sign + behind);
    assert s[1 + |sign|..] == behind;
    assert sign == [] ==> s[1] == behind[0];
  }

  lemma FractionRead(fraction: Option<Str>, rest: Str)
    requires fraction.Some? ==> AreDigits(fraction.value)
    requires rest == [] || (!IsDigit(rest[0]) && rest[0] != DOT)
    ensures FractionLength(FractionText(fraction) + rest) == Some(|FractionText(fraction)|)
  {
    var s := FractionText(fraction) + rest;
    match fraction
    case None => assert s == rest;
    case Some(digits) =>
      DigitsRead(digits, rest);
      assert s[1..] == digits + rest;
  }

  lemma WholeRead(whole: Str, rest: Str)
    requires AreDigits(whole) && (whole[0] == At('0') ==> |whole| == 1) && (rest == [] || !IsDigit(rest[0]))
    ensures IntegerLength(whole + rest) == |whole|
  {
    DigitsRead(whole, rest);
  }

  lemma NumeralRead(n: Numeral, rest: Str)
    requires IsNumeral(n) && Ends(rest)
    ensures NumberLength(NumeralText(n) + rest) == Some(|NumeralText(n)|)
  {
    hide FractionLength, ExponentLength, IntegerLength, IsExponent, ExponentText, FractionText;
    var third := ExponentText(n.exponent) + rest;
    var second := FractionText(n.fraction) + third;
    var sign: Str := if n.minus then [At('-')] else [];
    NumeralSplits(sign, n.whole, FractionText(n.fraction), ExponentText(n.exponent), rest);
    assert third == [] || (!IsDigit(third[0]) && third[0] != DOT) by { ExponentStarts(n.exponent, rest); }
    ExponentRead(n.exponent, rest);
    FractionRead(n.fraction, third);
    assert second == [] || !IsDigit(second[0]) by { FractionStarts(n.fraction, third); }
    WholeRead(n.whole, second);
  }

  lemma NumeralSplits(sign: Str, whole: Str, fraction: Str, exponent: Str, rest: Str)
    ensures var s := sign + whole + fraction + exponent + rest;
      && s[..|sign|] == sign && (sign == [] && whole != [] ==> s[0] == whole[0])
      && s[|sign|..] == whole + (fraction + (exponent + rest))
      && s[|sign| + |whole|..] == fraction + (exponent + rest)
      && s[|sign| + |whole| + |fraction|..] == exponent + rest
  {
  }

  lemma FractionStarts(fraction: Option<Str>, rest: Str)
    requires rest == [] || !IsDigit(rest[0])
    ensures var s := FractionText(fraction) + rest; s == [] || !IsDigit(s[0])
  {
    if fraction.None? {
      assert FractionText(fraction) + rest == rest;
    }
  }

  lemma ExponentStarts(exponent: Option<Exponent>, rest: Str)
    requires (exponent.Some? ==> IsExponent(exponent.value)) && Ends(rest)
    ensures var s := ExponentText(exponent) + rest; s == [] || (!IsDigit(s[0]) && s[0] != DOT)
  {
    if exponent.None? {
      assert ExponentText(exponent) + rest == rest;
    }
  }

  // --- and only numbers ---

  lemma FractionOf(s: Str) returns (fraction: Option<Str>)
    requires FractionLength(s).Some?
    ensures (fraction.Some? ==> AreDigits(fraction.value)) && FractionText(fraction) == s[..FractionLength(s).value]
  {
    if s == [] || s[0] != DOT {
      fraction := None;
    } else {
      var k := Digits(s[1..]);
      DigitsAreDigits(s[1..]);
      fraction := Some(s[1..][..k]);
      assert s[..1 + k] == [s[0]] + s[1..][..k];
    }
  }

  lemma ExponentOf(s: Str) returns (exponent: Option<Exponent>)
    requires ExponentLength(s).Some?
    ensures (exponent.Some? ==> IsExponent(exponent.value)) && ExponentText(exponent) == s[..ExponentLength(s).value]
  {
    if s == [] || (s[0] != 0x65 && s[0] != 0x45) {
      exponent := None;
    } else {
      var sign := if |s| > 1 && (s[1] == PLUS || s[1] == MINUS) then 1 else 0;
      var k := Digits(s[1 + sign..]);
      DigitsAreDigits(s[1 + sign..]);
      var e := Exponent(s[0], s[1..1 + sign], s[1 + sign..][..k]);
      assert e.sign == [] || e.sign == [s[1]];
      assert s[..1 + sign + k] == [s[0]] + e.sign + e.digits;
      exponent := Some(e);
    }
  }

  lemma WholeOf(s: Str)
    requires IntegerLength(s) > 0
    ensures var whole := s[..IntegerLength(s)]; AreDigits(whole) && (whole[0] == At('0') ==> |whole| == 1)
  {
    DigitsAreDigits(s);
  }

  lemma NumeralOf(s: Str) returns (n: Numeral)
    requires NumberLength(s).Some?
    ensures IsNumeral(n) && NumeralText(n) == s[..NumberLength(s).value]
  {
    hide FractionLength, ExponentLength, IntegerLength, IsExponent, AreDigits, ExponentText, FractionText;
    var sign := if s != [] && s[0] == MINUS then 1 else 0;
    var whole := IntegerLength(s[sign..]);
    var second := s[sign + whole..];
    var fraction := FractionOf(second);
    var third := s[sign + whole + FractionLength(second).value..];
    var exponent := ExponentOf(third);
    WholeOf(s[sign..]);
    n := Numeral(sign == 1, s[sign..][..whole], fraction, exponent);
    FourParts(s, sign, whole, FractionLength(second).value, ExponentLength(third).value);
    assert s[..sign] == if n.minus then [At('-')] else [];
  }

  lemma FourParts(s: Str, a: nat, b: nat, c: nat, d: nat)
    requires a + b + c + d <= |s|
    ensures s[..a + b + c + d] == s[..a] + s[a..][..b] + s[a + b..][..c] + s[a + b + c..][..d]
  {
  }

  /** A well-formed number is written as one of the grammar's. */
  lemma WellFormedNumberIsNumeral(lexeme: Str)
    ensures WellFormed(Number(lexeme)) <==> exists n :: IsNumeral(n) && NumeralText(n) == lexeme
  {
    hide NumberLength, IsNumeral, NumeralText;
    if NumberLength(lexeme) == Some(|lexeme|) {
      var n := NumeralOf(lexeme);
      assert lexeme[..|lexeme|] == lexeme;
    }
    if n :| IsNumeral(n) && NumeralText(n) == lexeme {
      NumeralRead(n, []);
      assert lexeme + [] == lexeme;
    }
  }

  // --- strings are read, and only strings ---

  lemma HexDigitValue(c: Unit, n: int)
    ensures IsHexDigit(c, n) <==> HexValue(c) == Some(n)
  {
  }

  lemma HexDigitsRead(digits: Str, u: Unit, rest: Str)
    requires IsLit(Hex(digits, u))
    ensures ReadHex(digits + rest) == Some(u)
  {
    hide HexValue, IsHexDigit;
    var n := u as int;
    HexDigitValue(digits[0], n / 4096);
    HexDigitValue(digits[1], n / 256 % 16);
    HexDigitValue(digits[2], n / 16 % 16);
    HexDigitValue(digits[3], n % 16);
    assert (n / 4096) * 16 + n / 256 % 16 == n / 256;
    assert (n / 256) * 16 + n / 16 % 16 == n / 16;
    assert (n / 16) * 16 + n % 16 == n;
  }

  lemma LitRead(lit: Lit, rest: Str)
    requires IsLit(lit)
    ensures ReadChars(LitText(lit) + rest) == Cons(lit.u, ReadChars(rest))
  {
    hide ReadHex, IsHexDigit;
    var s := LitText(lit) + rest;
    match lit
    case Plain(_) => assert s[1..] == rest;
    case Short(letter, u) =>
      assert s[2..] == rest;
      assert letter != 0x75 && Unescape(letter) == Some(u);
    case Hex(digits, u) =>
      HexDigitsRead(digits, u, rest);
      assert s[2..] == digits + rest;
      assert s[6..] == rest;
  }

  lemma {:induction false} LitsRead(lits: seq<Lit>, rest: Str)
    requires AreLits(lits)
    ensures ReadChars(LitsText(lits) + [QUOTE] + rest) == Some((LitsUnits(lits), rest))
  {
    if lits == [] {
      assert LitsText(lits) + [QUOTE] + rest == [QUOTE] + rest;
    } else {
      hide LitText, ReadChars, IsLit;
      LitsRead(lits[1..], rest);
      var behind := LitsText(lits[1..]) + [QUOTE] + rest;
      assert LitsText(lits) + [QUOTE] + rest == LitText(lits[0]) + behind;
      LitRead(lits[0], behind);
    }
  }

  lemma HexDigitsOf(s: Str)
    requires ReadHex(s).Some?
    ensures IsLit(Hex(s[..4], ReadHex(s).value))
  {
    hide HexValue, IsHexDigit;
    var a, b, c, d := HexValue(s[0]).value, HexValue(s[1]).value, HexValue(s[2]).value, HexValue(s[3]).value;
    HexDigitValue(s[0], a);
    HexDigitValue(s[1], b);
    HexDigitValue(s[2], c);
    HexDigitValue(s[3], d);
    HexIsBelow(s[0], a);
    HexIsBelow(s[1], b);
    HexIsBelow(s[2], c);
    HexIsBelow(s[3], d);
    var n := ((a * 16 + b) * 16 + c) * 16 + d;
    assert n / 16 == (a * 16 + b) * 16 + c && n % 16 == d;
    assert n / 256 == a * 16 + b && n / 16 % 16 == c;
    assert n / 4096 == a && n / 256 % 16 == b;
  }

  lemma HexIsBelow(c: Unit, n: int)
    requires IsHexDigit(c, n)
    ensures 0 <= n < 16
  {
  }

  lemma {:induction false} LitsOf(s: Str) returns (lits: seq<Lit>)
    requires ReadChars(s).Some?
    ensures AreLits(lits) && LitsUnits(lits) == ReadChars(s).value.0
    ensures s == LitsText(lits) + [QUOTE] + ReadChars(s).value.1
    decreases |s|
  {
    if s[0] == QUOTE {
      lits := [];
      assert s == [QUOTE] + s[1..];
    } else {
      hide LitText, ReadChars, IsLit;
      var lit, behind := LitOf(s);
      var more := LitsOf(behind);
      lits := [lit] + more;
      assert lits[1..] == more;
      Regrouped(LitText(lit), LitsText(more), [QUOTE], ReadChars(s).value.1);
    }
  }

  lemma LitOf(s: Str) returns (lit: Lit, behind: Str)
    requires ReadChars(s).Some? && s[0] != QUOTE
    ensures IsLit(lit) && s == LitText(lit) + behind && |behind| < |s|
    ensures ReadChars(s) == Cons(lit.u, ReadChars(behind))
  {
    hide ReadHex, IsHexDigit;
    if s[0] != BACKSLASH {
      lit, behind := Plain(s[0]), s[1..];
    } else if s[1] == 0x75 {
      HexDigitsOf(s[2..]);
      lit, behind := Hex(s[2..][..4], ReadHex(s[2..]).value), s[6..];
      assert s == [s[0], s[1]] + s[2..][..4] + s[6..];
    } else {
      lit, behind := Short(s[1], Unescape(s[1]).value), s[2..];
      assert s == [s[0], s[1]] + s[2..];
    }
  }

  // --- values are read ---

  lemma TreeOpens(t: Tree)
    requires IsTree(t)
    ensures Opens(TreeText(t))
  {
    hide IsBlank, AreLits, AreElements, ArePairs, ElementsText, PairsText, LitsText;
    hide FractionText, ExponentText, IsExponent;
    if t.NumberTree? {
      NumeralOpens(t.n);
    }
  }

  lemma NumeralOpens(n: Numeral)
    requires IsNumeral(n)
    ensures NumeralText(n) != [] && (NumeralText(n)[0] == MINUS || IsDigit(NumeralText(n)[0]))
  {
    hide FractionText, ExponentText, IsExponent;
  }

  /** A text that goes on behind a value. */
  predicate GoesOn(tail: Str) {
    tail == [] || tail[0] == COMMA || tail[0] == CLOSE_ARRAY || tail[0] == CLOSE_OBJECT
  }

  lemma BlankEnds(blank: Str, tail: Str)
    requires IsBlank(blank) && GoesOn(tail)
    ensures Ends(blank + tail) && SkipSpace(blank + tail) == tail
  {
    BlankIsSkipped(blank, tail);
    if blank == [] {
      assert blank + tail == tail;
    }
  }

  lemma WordRead(word: Str, rest: Str)
    requires word == Units("null") || word == Units("true") || word == Units("false")
    ensures ReadValue(word + rest) ==
      Some((if word == Units("null") then Null else Bool(word == Units("true")), rest))
  {
    hide ReadItems, ReadMembers, ReadChars, NumberLength;
    Spelled();
    assert (word + rest)[|word|..] == rest;
  }

  lemma Spelled()
    ensures Units("null") == NULL && Units("true") == TRUE && Units("false") == FALSE
  {
  }

  lemma StringRead(lits: seq<Lit>, rest: Str)
    requires AreLits(lits)
    ensures ReadChars((StringText(lits) + rest)[1..]) == Some((LitsUnits(lits), rest))
    ensures ReadValue(StringText(lits) + rest) == Some((String(LitsUnits(lits)), rest))
  {
    hide LitsText, LitsUnits, AreLits, ReadItems, ReadMembers, ReadChars;
    LitsRead(lits, rest);
    assert (StringText(lits) + rest)[1..] == LitsText(lits) + [QUOTE] + rest;
  }

  lemma NumberTreeRead(n: Numeral, rest: Str)
    requires IsNumeral(n) && Ends(rest)
    ensures ReadValue(NumeralText(n) + rest) == Some((Number(NumeralText(n)), rest))
  {
    hide NumberLength, NumeralText, IsNumeral, ReadLiteral, ReadItems, ReadMembers, ReadChars;
    NumeralRead(n, rest);
    NumeralOpens(n);
    var text := NumeralText(n);
    assert (text + rest)[..|text|] == text && (text + rest)[|text|..] == rest;
  }

  lemma EmptyRead(open: Unit, blank: Str, close: Unit, rest: Str)
    requires IsBlank(blank)
    requires (open == OPEN_ARRAY && close == CLOSE_ARRAY) || (open == OPEN_OBJECT && close == CLOSE_OBJECT)
    ensures ReadValue([open] + blank + [close] + rest) ==
      Some((if open == OPEN_ARRAY then Array([]) else Object([]), rest))
  {
    hide ReadItems, ReadMembers, ReadChars;
    var s := [open] + blank + [close] + rest;
    assert s[1..] == blank + ([close] + rest);
    BlankEnds(blank, [close] + rest);
    assert ([close] + rest)[1..] == rest;
  }

  lemma {:induction false} TreeRead(t: Tree, rest: Str)
    requires IsTree(t) && Ends(rest)
    ensures ReadValue(TreeText(t) + rest) == Some((Meaning(t), rest))
    decreases t, 1
  {
    hide ReadValue, NumeralText, StringText, ElementsText, PairsText, IsBlank, Units, Ends;
    match t
    case NullTree => WordRead(Units("null"), rest) by { Distinct(); }
    case BoolTree(b) =>
      Distinct();
      WordRead(if b then Units("true") else Units("false"), rest);
    case NumberTree(n) => NumberTreeRead(n, rest);
    case StringTree(lits) => StringRead(lits, rest);
    case EmptyArray(blank) => EmptyRead(OPEN_ARRAY, blank, CLOSE_ARRAY, rest);
    case ArrayTree(elements) => ArrayRead(elements, rest);
    case EmptyObject(blank) => EmptyRead(OPEN_OBJECT, blank, CLOSE_OBJECT, rest);
    case ObjectTree(pairs) => ObjectRead(pairs, rest);
  }

  lemma Distinct()
    ensures Units("null") != Units("true") && Units("null") != Units("false") && Units("true") != Units("false")
  {
    assert Units("null")[0] != Units("true")[0] && Units("null")[0] != Units("false")[0];
    assert Units("true")[0] != Units("false")[0];
  }

  lemma {:induction false} ArrayRead(elements: Elements, rest: Str)
    requires AreElements(elements)
    ensures ReadValue([OPEN_ARRAY] + ElementsText(elements) + [CLOSE_ARRAY] + rest) ==
      Some((Array(Meanings(elements)), rest))
    decreases elements, 2
  {
    hide ReadItems, ReadMembers, ReadChars, ElementsText, SkipSpace;
    var s := [OPEN_ARRAY] + ElementsText(elements) + [CLOSE_ARRAY] + rest;
    ElementsRead(elements, rest);
    assert s[1..] == ElementsText(elements) + ([CLOSE_ARRAY] + rest);
  }

  lemma {:induction false} ObjectRead(pairs: Pairs, rest: Str)
    requires ArePairs(pairs)
    ensures ReadValue([OPEN_OBJECT] + PairsText(pairs) + [CLOSE_OBJECT] + rest) ==
      Some((Object(Members(pairs)), rest))
    decreases pairs, 2
  {
    hide ReadItems, ReadMembers, ReadChars, PairsText, SkipSpace;
    var s := [OPEN_OBJECT] + PairsText(pairs) + [CLOSE_OBJECT] + rest;
    PairsRead(pairs, rest);
    assert s[1..] == PairsText(pairs) + ([CLOSE_OBJECT] + rest);
  }

  /** An element with its white space, and what goes on behind it. */
  lemma {:induction false} ElementRead(e: Element, tail: Str)
    requires IsElement(e) && GoesOn(tail)
    ensures var s := SkipSpace(ElementText(e) + tail);
      && Opens(s) && ReadValue(s) == Some((Meaning(e.tree), e.after + tail))
    ensures SkipSpace(e.after + tail) == tail
    decreases e, 1
  {
    hide ReadValue, TreeText, IsBlank, Meaning;
    var behind := e.after + tail;
    BlankEnds(e.after, tail);
    TreeRead(e.tree, behind);
    TreeOpens(e.tree);
    Regrouped(e.before, TreeText(e.tree), e.after, tail);
    BlankIsSkipped(e.before, TreeText(e.tree) + behind);
  }

  lemma {:induction false} ElementsRead(es: Elements, rest: Str)
    requires AreElements(es)
    ensures var s := SkipSpace(ElementsText(es) + ([CLOSE_ARRAY] + rest));
      Opens(s) && ReadItems(s) == Some((Meanings(es), rest))
    decreases es, 1
  {
    hide ReadValue, ElementText, IsElement, Meaning;
    match es
    case LastElement(e) =>
      var tail := [CLOSE_ARRAY] + rest;
      ElementRead(e, tail);
      assert tail[1..] == rest;
    case MoreElements(e, more) =>
      var next := ElementsText(more) + ([CLOSE_ARRAY] + rest);
      var tail := [COMMA] + next;
      ElementRead(e, tail);
      ElementsRead(more, rest);
      Regrouped(ElementText(e), [COMMA], ElementsText(more), [CLOSE_ARRAY] + rest);
      assert tail[1..] == next;
  }

  lemma {:induction false} PairRead(p: Pair, tail: Str)
    requires IsPair(p) && GoesOn(tail)
    ensures var s := SkipSpace(PairText(p) + tail);
      && Opens(s)
      && ReadMembers(s) == AfterMember(Member(LitsUnits(p.name), Meaning(p.element.tree)), p.element.after + tail)
    ensures SkipSpace(p.element.after + tail) == tail
    decreases p, 1
  {
    hide ReadValue, ReadChars, ElementText, StringText, IsElement, Meaning, LitsUnits, AreLits, AfterMember;
    var e := p.element;
    ElementRead(e, tail);
    var value := [COLON] + (ElementText(e) + tail);
    var named := StringText(p.name) + (p.between + value);
    StringRead(p.name, p.between + value);
    PairSplits(p, tail);
    BlankIsSkipped(p.before, named);
    BlankIsSkipped(p.between, value);
    assert value[1..] == ElementText(e) + tail;
    assert named[0] == QUOTE by { StringStarts(p.name); }
  }

  lemma StringStarts(lits: seq<Lit>)
    ensures StringText(lits) != [] && StringText(lits)[0] == QUOTE
  {
  }

  lemma PairSplits(p: Pair, tail: Str)
    ensures PairText(p) + tail ==
      p.before + (StringText(p.name) + (p.between + ([COLON] + (ElementText(p.element) + tail))))
  {
    hide StringText, ElementText;
    Regrouped(p.between, [COLON], ElementText(p.element), tail);
    Regrouped(p.before, StringText(p.name), p.between, [COLON] + (ElementText(p.element) + tail));
    Regrouped(p.before + StringText(p.name) + p.between, [COLON], ElementText(p.element), tail);
  }

  lemma {:induction false} PairsRead(ps: Pairs, rest: Str)
    requires ArePairs(ps)
    ensures var s := SkipSpace(PairsText(ps) + ([CLOSE_OBJECT] + rest));
      Opens(s) && ReadMembers(s) == Some((Members(ps), rest))
    decreases ps, 1
  {
    hide ReadMembers, PairText, IsPair, Meaning, LitsUnits;
    match ps
    case LastPair(p) =>
      var tail := [CLOSE_OBJECT] + rest;
      PairRead(p, tail);
      assert tail[1..] == rest;
    case MorePairs(p, more) =>
      var next := PairsText(more) + ([CLOSE_OBJECT] + rest);
      var tail := [COMMA] + next;
      PairRead(p, tail);
      PairsRead(more, rest);
      Regrouped(PairText(p), [COMMA], PairsText(more), [CLOSE_OBJECT] + rest);
      assert tail[1..] == next;
  }

  // --- and only values ---

  lemma {:induction false} TreeOf(s: Str) returns (t: Tree)
    requires ReadValue(s).Some?
    ensures IsTree(t) && Meaning(t) == ReadValue(s).value.0 && s == TreeText(t) + ReadValue(s).value.1
    decreases |s|, 2
  {
    hide ReadChars, ReadItems, ReadMembers, NumberLength, SkipSpace, IsNumeral, NumeralText;
    hide LitsText, LitsUnits, AreLits, IsBlank, ElementsText, PairsText, AreElements, ArePairs, Units;
    if s[0] == QUOTE {
      var lits := LitsOf(s[1..]);
      t := StringTree(lits);
      assert s == [s[0]] + s[1..];
      Regrouped([QUOTE], LitsText(lits), [QUOTE], ReadChars(s[1..]).value.1);
    } else if s[0] == OPEN_ARRAY {
      t := ArrayOf(s);
    } else if s[0] == OPEN_OBJECT {
      t := ObjectOf(s);
    } else {
      t := WordOrNumberOf(s);
    }
  }

  lemma WordOrNumberOf(s: Str) returns (t: Tree)
    requires ReadValue(s).Some? && s[0] != QUOTE && s[0] != OPEN_ARRAY && s[0] != OPEN_OBJECT
    ensures IsTree(t) && Meaning(t) == ReadValue(s).value.0 && s == TreeText(t) + ReadValue(s).value.1
  {
    hide ReadChars, ReadItems, ReadMembers, NumberLength, SkipSpace, IsNumeral, NumeralText;
    Spelled();
    if s[0] == NULL[0] {
      t := NullTree;
    } else if s[0] == TRUE[0] {
      t := BoolTree(true);
    } else if s[0] == FALSE[0] {
      t := BoolTree(false);
    } else {
      var n := NumeralOf(s);
      t := NumberTree(n);
    }
  }

  lemma {:induction false} ArrayOf(s: Str) returns (t: Tree)
    requires ReadValue(s).Some? && s[0] == OPEN_ARRAY
    ensures IsTree(t) && Meaning(t) == ReadValue(s).value.0 && s == TreeText(t) + ReadValue(s).value.1
    decreases |s|, 1
  {
    hide ReadChars, ReadItems, ReadMembers, SkipSpace, IsBlank, ElementsText, AreElements;
    var blank := SkippedIsBlank(s[1..]);
    var u := SkipSpace(s[1..]);
    assert s == [s[0]] + (blank + u);
    if u != [] && u[0] == CLOSE_ARRAY {
      t := EmptyArray(blank);
      assert u == [u[0]] + u[1..];
    } else {
      var es := ElementsOf(blank, u);
      t := ArrayTree(es);
    }
  }

  lemma {:induction false} ObjectOf(s: Str) returns (t: Tree)
    requires ReadValue(s).Some? && s[0] == OPEN_OBJECT
    ensures IsTree(t) && Meaning(t) == ReadValue(s).value.0 && s == TreeText(t) + ReadValue(s).value.1
    decreases |s|, 1
  {
    hide ReadChars, ReadItems, ReadMembers, SkipSpace, IsBlank, PairsText, ArePairs;
    var blank := SkippedIsBlank(s[1..]);
    var u := SkipSpace(s[1..]);
    assert s == [s[0]] + (blank + u);
    if u != [] && u[0] == CLOSE_OBJECT {
      t := EmptyObject(blank);
      assert u == [u[0]] + u[1..];
    } else {
      var ps := PairsOf(blank, u);
      t := ObjectTree(ps);
    }
  }

  /** The white space that was skipped in front belongs to the first element. */
  lemma {:induction false} ElementsOf(blank: Str, s: Str) returns (es: Elements)
    requires IsBlank(blank) && ReadItems(s).Some?
    ensures AreElements(es) && Meanings(es) == ReadItems(s).value.0
    ensures blank + s == ElementsText(es) + ([CLOSE_ARRAY] + ReadItems(s).value.1)
    decreases |s|, 3
  {
    hide ReadValue, SkipSpace, IsBlank, TreeText, IsTree, Meaning;
    var t := TreeOf(s);
    var behind := ReadValue(s).value.1;
    var after := SkippedIsBlank(behind);
    var u := SkipSpace(behind);
    var e := Element(blank, t, after);
    assert u == [u[0]] + u[1..];
    Regrouped(blank, TreeText(t), after, u);
    if u[0] == CLOSE_ARRAY {
      es := LastElement(e);
    } else {
      var next := SkippedIsBlank(u[1..]);
      var more := ElementsOf(next, SkipSpace(u[1..]));
      es := MoreElements(e, more);
      Regrouped(ElementText(e), [COMMA], ElementsText(more), [CLOSE_ARRAY] + ReadItems(s).value.1);
    }
  }

  lemma {:induction false} PairsOf(blank: Str, s: Str) returns (ps: Pairs)
    requires IsBlank(blank) && ReadMembers(s).Some?
    ensures ArePairs(ps) && Members(ps) == ReadMembers(s).value.0
    ensures blank + s == PairsText(ps) + ([CLOSE_OBJECT] + ReadMembers(s).value.1)
    decreases |s|, 3
  {
    hide ReadValue, SkipSpace, IsBlank, TreeText, IsTree, Meaning, PairText, IsPair, LitsUnits, ReadMembers;
    var p, u := PairOf(blank, s);
    assert u == [u[0]] + u[1..];
    if u[0] == CLOSE_OBJECT {
      ps := LastPair(p);
    } else {
      var next := SkippedIsBlank(u[1..]);
      var more := PairsOf(next, SkipSpace(u[1..]));
      ps := MorePairs(p, more);
      Regrouped(PairText(p), [COMMA], PairsText(more), [CLOSE_OBJECT] + ReadMembers(s).value.1);
    }
  }

  lemma {:induction false} PairOf(blank: Str, s: Str) returns (p: Pair, u: Str)
    requires IsBlank(blank) && ReadMembers(s).Some?
    ensures IsPair(p) && blank + s == PairText(p) + u && |u| < |s| && SkipSpace(u) == u && u != []
    ensures ReadMembers(s) == AfterMember(Member(LitsUnits(p.name), Meaning(p.element.tree)), u)
    decreases |s|, 0
  {
    hide ReadValue, ReadChars, IsBlank, TreeText, IsTree, Meaning, LitsText, LitsUnits, AreLits;
    var name := LitsOf(s[1..]);
    var behindName := ReadChars(s[1..]).value.1;
    var between := SkippedIsBlank(behindName);
    var colon := SkipSpace(behindName);
    var before := SkippedIsBlank(colon[1..]);
    var value := SkipSpace(colon[1..]);
    var t := TreeOf(value);
    var behind := ReadValue(value).value.1;
    var after := SkippedIsBlank(behind);
    u := SkipSpace(behind);
    p := Pair(blank, name, between, Element(before, t, after));
    assert s == StringText(name) + behindName by {
      assert s == [QUOTE] + s[1..];
      Regrouped([QUOTE], LitsText(name), [QUOTE], behindName);
    }
    Regrouped(before, TreeText(t), after, u);
    assert colon == [COLON] + colon[1..];
    PairSplits(p, u);
  }

  /** JSON.parse accepts exactly the texts the grammar gives a value, and answers that value. */
  lemma ParseIsExact(text: Str, v: Value)
    ensures Parse(text) == Some(v) <==> IsTextOf(text, v)
  {
    hide ReadValue, SkipSpace, TreeText, IsTree, Meaning, IsBlank;
    if Parse(text) == Some(v) {
      var before := SkippedIsBlank(text);
      var t := TreeOf(SkipSpace(text));
      var rest := ReadValue(SkipSpace(text)).value.1;
      var after := SkippedIsBlank(rest);
      var e := Element(before, t, after);
      assert after + [] == after;
      assert ElementText(e) == text;
    }
    if e: Element :| IsElement(e) && ElementText(e) == text && Meaning(e.tree) == v {
      ElementRead(e, []);
      assert ElementText(e) + [] == text && e.after + [] == e.after;
    }
  }

  // --- what is written is read back ---

  /** How JSON.stringify writes one unit that is not half of a surrogate pair. */
  function WrittenLit(u: Unit): Lit {
    if u == At('\"') || u == At('\\') then Short(u, u)
    else if u == 0x08 then Short(At('b'), u)
    else if u == 0x0C then Short(At('f'), u)
    else if u == At('\n') then Short(At('n'), u)
    else if u == At('\r') then Short(At('r'), u)
    else if u == At('\t') then Short(At('t'), u)
    else if u < 0x20 || IsHigh(u) || IsLow(u) then Hex(UnicodeEscape(u)[2..], u)
    else Plain(u)
  }

  lemma HexIsWritten(u: Unit)
    ensures IsLit(Hex(UnicodeEscape(u)[2..], u))
  {
    hide HexDigit, HexValue, IsHexDigit;
    var n := u as int;
    HexDigitValue(HexDigit(n / 16 / 16 / 16), n / 16 / 16 / 16);
    HexDigitValue(HexDigit(n / 16 / 16 % 16), n / 16 / 16 % 16);
    HexDigitValue(HexDigit(n / 16 % 16), n / 16 % 16);
    HexDigitValue(HexDigit(n % 16), n % 16);
    assert n / 16 / 16 == n / 256 && n / 256 / 16 == n / 4096;
  }

  lemma LitIsWritten(u: Unit)
    ensures IsLit(WrittenLit(u)) && LitText(WrittenLit(u)) == Escape(u) && WrittenLit(u).u == u
  {
    hide IsHexDigit;
    HexIsWritten(u);
    assert UnicodeEscape(u) == UnicodeEscape(u)[..2] + UnicodeEscape(u)[2..];
  }

  lemma {:induction false} LitsAreWritten(s: Str) returns (lits: seq<Lit>)
    ensures AreLits(lits) && LitsText(lits) == Escaped(s) && LitsUnits(lits) == s
  {
    hide IsLit, LitText, Escape, WrittenLit;
    if s == [] {
      lits := [];
    } else if |s| >= 2 && IsHigh(s[0]) && IsLow(s[1]) {
      var more := LitsAreWritten(s[2..]);
      PlainPair(s[0], s[1]);
      lits := [Plain(s[0])] + ([Plain(s[1])] + more);
      assert lits[1..] == [Plain(s[1])] + more && lits[1..][1..] == more;
      assert s[..2] == [s[0]] + [s[1]];
      assert s == [s[0]] + ([s[1]] + s[2..]);
    } else {
      var more := LitsAreWritten(s[1..]);
      LitIsWritten(s[0]);
      lits := [WrittenLit(s[0])] + more;
      assert lits[1..] == more;
      assert s == [s[0]] + s[1..];
    }
  }

  lemma PlainPair(high: Unit, low: Unit)
    requires IsHigh(high) && IsLow(low)
    ensures IsLit(Plain(high)) && IsLit(Plain(low)) && LitText(Plain(high)) == [high] && LitText(Plain(low)) == [low]
  {
  }

  lemma {:induction false} TreeIsWritten(v: Value) returns (t: Tree)
    requires WellFormed(v)
    ensures IsTree(t) && TreeText(t) == Stringify(v) && Meaning(t) == v
    decreases Weight(v), 1
  {
    hide Units, NumberLength, IsNumeral, NumeralText, AreLits, LitsText, LitsUnits, Escaped;
    Spelled();
    match v
    case Null => t := NullTree;
    case Bool(b) => t := BoolTree(b);
    case Number(lexeme) =>
      WellFormedNumberIsNumeral(lexeme);
      var n :| IsNumeral(n) && NumeralText(n) == lexeme;
      t := NumberTree(n);
    case String(s) =>
      var lits := LitsAreWritten(s);
      t := StringTree(lits);
    case Array(items) =>
      if items == [] {
        t := EmptyArray([]);
      } else {
        var es := ElementsAreWritten(items);
        t := ArrayTree(es);
      }
    case Object(members) =>
      if members == [] {
        t := EmptyObject([]);
      } else {
        var ps := PairsAreWritten(members);
        t := ObjectTree(ps);
      }
  }

  lemma {:induction false} ElementsAreWritten(items: seq<Value>) returns (es: Elements)
    requires items != [] && forall i :: 0 <= i < |items| ==> WellFormed(items[i])
    ensures AreElements(es) && Meanings(es) == items
    ensures ElementsText(es) + [CLOSE_ARRAY] == StringifyItems(items)
    decreases 1 + Weights(items), 1
  {
    hide TreeText, IsTree, Meaning, Stringify, WellFormed;
    var t := TreeIsWritten(items[0]);
    var e := Element([], t, []);
    assert ElementText(e) == Stringify(items[0]);
    if |items| == 1 {
      es := LastElement(e);
      assert items == [items[0]];
    } else {
      var more := ElementsAreWritten(items[1..]);
      es := MoreElements(e, more);
      assert items == [items[0]] + items[1..];
      Regrouped(ElementText(e), [COMMA], ElementsText(more), [CLOSE_ARRAY]);
    }
  }

  lemma {:induction false} PairsAreWritten(members: seq<Json.Member>) returns (ps: Pairs)
    requires members != [] && forall i :: 0 <= i < |members| ==> WellFormed(members[i].value)
    ensures ArePairs(ps) && Members(ps) == members
    ensures PairsText(ps) + [CLOSE_OBJECT] == StringifyMembers(members)
    decreases 1 + MemberWeights(members), 1
  {
    hide TreeText, IsTree, Meaning, Stringify, WellFormed, LitsText, LitsUnits, AreLits, Escaped;
    var name := LitsAreWritten(members[0].key);
    var t := TreeIsWritten(members[0].value);
    var p := Pair([], name, [], Element([], t, []));
    assert StringText(name) == Quoted(members[0].key);
    assert PairText(p) == Quoted(members[0].key) + [COLON] + Stringify(members[0].value);
    assert IsPair(p) && Json.Member(LitsUnits(p.name), Meaning(p.element.tree)) == members[0];
    if |members| == 1 {
      ps := LastPair(p);
      assert Members(ps) == [members[0]] == members;
    } else {
      var more := PairsAreWritten(members[1..]);
      ps := MorePairs(p, more);
      assert Members(ps) == [members[0]] + members[1..] == members;
      Regrouped(PairText(p), [COMMA], PairsText(more), [CLOSE_OBJECT]);
    }
  }

  /** JSON.parse(JSON.stringify(v)) is v, for every value. */
  lemma ParseStringify(v: Value)
    requires WellFormed(v)
    ensures Parse(Stringify(v)) == Some(v)
  {
    hide TreeText, IsTree, Meaning, Stringify, WellFormed, Parse;
    var t := TreeIsWritten(v);
    var e := Element([], t, []);
    assert ElementText(e) == Stringify(v);
    ParseIsExact(Stringify(v), v);
  }
}
