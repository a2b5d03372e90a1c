/**
 * The recogniser that refuses JSON with duplicate member names before it is parsed for good.
 *
 * Text is a sequence of UTF-16 code units. The grammar is that of sections 2 to 7 of RFC 8259,
 * written as syntax trees that remember their white space, tokens and escapes, so that a tree and
 * its text determine each other. White space is the wider class the program skips, which contains
 * the four characters of section 2.
 */
module JsonText {
  import opened Common

  type Unit = u: int | 0 <= u < 0x1_0000
  type Text = seq<Unit>

  const QUOTE: Unit := 0x22
  const BACKSLASH: Unit := 0x5C
  const OPEN_BRACE: Unit := 0x7B
  const CLOSE_BRACE: Unit := 0x7D
  const OPEN_BRACKET: Unit := 0x5B
  const CLOSE_BRACKET: Unit := 0x5D
  const COLON: Unit := 0x3A
  const COMMA: Unit := 0x2C
  const MINUS: Unit := 0x2D
  const PLUS: Unit := 0x2B
  const DOT: Unit := 0x2E
  const ZERO: Unit := 0x30
  const LOWER_E: Unit := 0x65
  const UPPER_E: Unit := 0x45
  const LOWER_U: Unit := 0x75

  predicate IsSpace(u: Unit) {
    || 9 <= u <= 13 || u == 0x20 || u == 0xA0 || u == 0x1680 || 0x2000 <= u <= 0x200A
    || u == 0x2028 || u == 0x2029 || u == 0x202F || u == 0x205F || u == 0x3000 || u == 0xFEFF
  }

  predicate IsDigit(u: Unit) {
    0x30 <= u <= 0x39
  }

  predicate Starts(t: Text, u: Unit) {
    t != [] && t[0] == u
  }

  predicate AllSpace(w: Text) {
    forall i :: 0 <= i < |w| ==> IsSpace(w[i])
  }

  predicate AllDigits(d: Text) {
    forall i :: 0 <= i < |d| ==> IsDigit(d[i])
  }

  // ---------------------------------------------------------------- strings

  function HexValue(u: Unit): (r: Option<int>)
    ensures r.Some? ==> 0 <= r.value < 16
  {
    if IsDigit(u) then Some(u - 0x30)
    else if 0x41 <= u <= 0x46 then Some(u - 0x41 + 10)
    else if 0x61 <= u <= 0x66 then Some(u - 0x61 + 10)
    else None
  }

  /** The unit a two-character escape stands for. */
  function ShortEscape(u: Unit): Option<Unit> {
    if u == QUOTE || u == BACKSLASH || u == 0x2F then Some(u)
    else if u == 0x62 then Some(8)
    else if u == 0x66 then Some(12)
    else if u == 0x6E then Some(10)
    else if u == 0x72 then Some(13)
    else if u == 0x74 then Some(9)
    else None
  }

  predicate FourHex(b: Text)
    requires |b| >= 6
  {
    HexValue(b[2]).Some? && HexValue(b[3]).Some? && HexValue(b[4]).Some? && HexValue(b[5]).Some?
  }

  function HexUnit(b: Text): Unit
    requires |b| >= 6 && FourHex(b)
  {
    ((HexValue(b[2]).value * 16 + HexValue(b[3]).value) * 16 + HexValue(b[4]).value) * 16 + HexValue(b[5]).value
  }

  function Prepend(u: Unit, rest: Option<Text>): Option<Text> {
    if rest.None? then None else Some([u] + rest.value)
  }

  /** What stands between the quotes of a string, unescaped; None when it is no string. */
  function Unescape(b: Text): Option<Text> {
    if b == [] then Some([])
    else if b[0] == BACKSLASH then
      if |b| < 2 then None
      else if ShortEscape(b[1]).Some? then Prepend(ShortEscape(b[1]).value, Unescape(b[2..]))
      else if b[1] == LOWER_U && |b| >= 6 && FourHex(b) then Prepend(HexUnit(b), Unescape(b[6..]))
      else None
    else if b[0] == QUOTE || b[0] < 0x20 then None
    else Prepend(b[0], Unescape(b[1..]))
  }

  // ---------------------------------------------------------------- syntax trees

  datatype Exponent = Exponent(marker: Unit, sign: Text, digits: Text)

  datatype Number = Number(minus: bool, whole: Text, fraction: Option<Text>, exponent: Option<Exponent>)

  datatype Literal = True | False | Null

  datatype Value =
    | EmptyObject(inside: Text)
    | Object(members: Members)
    | EmptyArray(inside: Text)
    | Array(elements: Elements)
    | String(body: Text)
    | Num(number: Number)
    | Lit(literal: Literal)

  datatype Member = Member(before: Text, key: Text, afterKey: Text, beforeValue: Text, value: Value, after: Text)

  datatype Members = Last(member: Member) | More(member: Member, rest: Members)

  datatype Element = Element(before: Text, value: Value, after: Text)

  datatype Elements = LastElement(element: Element) | MoreElements(element: Element, rest: Elements)

  function Word(l: Literal): Text {
    match l
    case True => [0x74, 0x72, 0x75, 0x65]
    case False => [0x66, 0x61, 0x6C, 0x73, 0x65]
    case Null => [0x6E, 0x75, 0x6C, 0x6C]
  }

  predicate IsWhole(d: Text) {
    d == [ZERO] || (d != [] && AllDigits(d) && d[0] != ZERO)
  }

  predicate IsExponent(e: Exponent) {
    && (e.marker == LOWER_E || e.marker == UPPER_E)
    && (e.sign == [] || e.sign == [PLUS] || e.sign == [MINUS])
    && e.digits != [] && AllDigits(e.digits)
  }

  predicate IsNumber(n: Number) {
    && IsWhole(n.whole)
    && (n.fraction.Some? ==> n.fraction.value != [] && AllDigits(n.fraction.value))
    && (n.exponent.Some? ==> IsExponent(n.exponent.value))
  }

  predicate WellFormed(v: Value) {
    match v
    case EmptyObject(inside) => AllSpace(inside)
    case Object(ms) => WellFormedMembers(ms)
    case EmptyArray(inside) => AllSpace(inside)
    case Array(es) => WellFormedElements(es)
    case String(body) => Unescape(body).Some?
    case Num(n) => IsNumber(n)
    case Lit(_) => true
  }

  predicate WellFormedMember(m: Member) {
    && AllSpace(m.before) && Unescape(m.key).Some? && AllSpace(m.afterKey) && AllSpace(m.beforeValue)
    && WellFormed(m.value) && AllSpace(m.after)
  }

  predicate WellFormedMembers(ms: Members) {
    match ms
    case Last(m) => WellFormedMember(m)
    case More(m, rest) => WellFormedMember(m) && WellFormedMembers(rest)
  }

  predicate WellFormedElements(es: Elements) {
    match es
    case LastElement(e) => AllSpace(e.before) && WellFormed(e.value) && AllSpace(e.after)
    case MoreElements(e, rest) => AllSpace(e.before) && WellFormed(e.value) && AllSpace(e.after) && WellFormedElements(rest)
  }

  // ---------------------------------------------------------------- printing in front of a text

  function PrintExponent(e: Option<Exponent>, t: Text): Text {
    if e.None? then t else [e.value.marker] + (e.value.sign + (e.value.digits + t))
  }

  function PrintNumber(n: Number, t: Text): Text {
    var tail := PrintExponent(n.exponent, t);
    var fraction := if n.fraction.None? then tail else [DOT] + (n.fraction.value + tail);
    if n.minus then [MINUS] + (n.whole + fraction) else n.whole + fraction
  }

  function PrintString(body: Text, t: Text): Text {
    [QUOTE] + (body + ([QUOTE] + t))
  }

  function Print(v: Value, t: Text): Text {
    match v
    case EmptyObject(inside) => [OPEN_BRACE] + (inside + ([CLOSE_BRACE] + t))
    case Object(ms) => [OPEN_BRACE] + PrintMembers(ms, t)
    case EmptyArray(inside) => [OPEN_BRACKET] + (inside + ([CLOSE_BRACKET] + t))
    case Array(es) => [OPEN_BRACKET] + PrintElements(es, t)
    case String(body) => PrintString(body, t)
    case Num(n) => PrintNumber(n, t)
    case Lit(l) => Word(l) + t
  }

  function PrintMember(m: Member, t: Text): Text {
    m.before + PrintString(m.key, m.afterKey + ([COLON] + (m.beforeValue + Print(m.value, m.after + t))))
  }

  function PrintMembers(ms: Members, t: Text): Text {
    match ms
    case Last(m) => PrintMember(m, [CLOSE_BRACE] + t)
    case More(m, rest) => PrintMember(m, [COMMA] + PrintMembers(rest, t))
  }

  function PrintElement(e: Element, t: Text): Text {
    e.before + Print(e.value, e.after + t)
  }

  function PrintElements(es: Elements, t: Text): Text {
    match es
    case LastElement(e) => PrintElement(e, [CLOSE_BRACKET] + t)
    case MoreElements(e, rest) => PrintElement(e, [COMMA] + PrintElements(rest, t))
  }

  // ---------------------------------------------------------------- uniqueness of names

  function Name(m: Member): Text {
    if Unescape(m.key).Some? then Unescape(m.key).value else []
  }

  function Names(ms: Members): set<Text> {
    match ms
    case Last(m) => {Name(m)}
    case More(m, rest) => {Name(m)} + Names(rest)
  }

  /** No object at any depth has two members whose names are equal after unescaping. */
  predicate UniqueNames(v: Value) {
    match v
    case Object(ms) => UniqueInMembers(ms)
    case Array(es) => UniqueInElements(es)
    case _ => true
  }

  predicate UniqueInMembers(ms: Members) {
    match ms
    case Last(m) => UniqueNames(m.value)
    case More(m, rest) => UniqueNames(m.value) && Name(m) !in Names(rest) && UniqueInMembers(rest)
  }

  predicate UniqueInElements(es: Elements) {
    match es
    case LastElement(e) => UniqueNames(e.value)
    case MoreElements(e, rest) => UniqueNames(e.value) && UniqueInElements(rest)
  }
}

/** The recogniser as a function of the text still to be read; None stands for a thrown error. */
module JsonRecogniser {
  import opened Common
  import opened JsonText

  function Skip(t: Text): (r: Text)
    ensures |r| <= |t| && (r != [] ==> !IsSpace(r[0]))
  {
    if t != [] && IsSpace(t[0]) then Skip(t[1..]) else t
  }

  function DropDigits(t: Text): (r: Text)
    ensures |r| <= |t|
  {
    if t != [] && IsDigit(t[0]) then DropDigits(t[1..]) else t
  }

  /** How many units precede the closing quote: an escaping backslash takes the next unit with it. */
  function BodyLength(t: Text): (n: Option<nat>)
    ensures n.Some? ==> n.value < |t| && t[n.value] == QUOTE
  {
    if t == [] then None
    else if t[0] == BACKSLASH then
      if |t| < 2 then None
      else
        var n := BodyLength(t[2..]);
        if n.None? then None else Some(n.value + 2)
    else if t[0] == QUOTE then Some(0)
    else
      var n := BodyLength(t[1..]);
      if n.None? then None else Some(n.value + 1)
  }

  datatype Parsed = Parsed(key: Text, rest: Text)

  function ParseString(t: Text): (r: Option<Parsed>)
    ensures r.Some? ==> |r.value.rest| < |t|
  {
    if !Starts(t, QUOTE) || BodyLength(t[1..]).None? then None
    else
      var n := BodyLength(t[1..]).value;
      match Unescape(t[1..][..n])
      case None => None
      case Some(key) => Some(Parsed(key, t[1..][n + 1..]))
  }

  function AfterFraction(t: Text): (r: Text)
    ensures |r| <= |t|
  {
    if Starts(t, DOT) && |t| > 1 && IsDigit(t[1]) then DropDigits(t[1..]) else t
  }

  function AfterExponent(t: Text): (r: Text)
    ensures |r| <= |t|
  {
    if Starts(t, LOWER_E) || Starts(t, UPPER_E) then
      var signed := t[1..];
      var digits := if Starts(signed, PLUS) || Starts(signed, MINUS) then signed[1..] else signed;
      if digits != [] && IsDigit(digits[0]) then DropDigits(digits) else t
    else t
  }

  function AfterWhole(t: Text): (r: Option<Text>)
    ensures r.Some? ==> |r.value| < |t|
  {
    if Starts(t, ZERO) then Some(t[1..])
    else if t != [] && IsDigit(t[0]) then Some(DropDigits(t[1..]))
    else None
  }

  function ParseNumber(t: Text): (r: Option<Text>)
    ensures r.Some? ==> |r.value| < |t|
  {
    match AfterWhole(if Starts(t, MINUS) then t[1..] else t)
    case None => None
    case Some(u) => Some(AfterExponent(AfterFraction(u)))
  }

  predicate StartsWith(t: Text, word: Text) {
    |word| <= |t| && t[..|word|] == word
  }

  function ParseLiteral(t: Text): (r: Option<Text>)
    ensures r.Some? ==> |r.value| < |t|
  {
    if StartsWith(t, Word(True)) then Some(t[4..])
    else if StartsWith(t, Word(False)) then Some(t[5..])
    else if StartsWith(t, Word(Null)) then Some(t[4..])
    else None
  }

  function ParseValue(t: Text): (r: Option<Text>)
    ensures r.Some? ==> |r.value| < |t|
    decreases |t|, 1
  {
    var u := Skip(t);
    if Starts(u, OPEN_BRACE) then
      var x := Skip(u[1..]);
      if Starts(x, CLOSE_BRACE) then Some(x[1..]) else ParseMembers(x, {})
    else if Starts(u, OPEN_BRACKET) then
      var x := Skip(u[1..]);
      if Starts(x, CLOSE_BRACKET) then Some(x[1..]) else ParseElements(x)
    else if Starts(u, QUOTE) then
      match ParseString(u)
      case None => None
      case Some(p) => Some(p.rest)
    else if ParseLiteral(u).Some? then ParseLiteral(u)
    else ParseNumber(u)
  }

  /** From a member on, when the names in `keys` have been seen in this object. */
  function ParseMembers(t: Text, keys: set<Text>): (r: Option<Text>)
    ensures r.Some? ==> |r.value| < |t|
    decreases |t|, 2
  {
    match ParseString(Skip(t))
    case None => None
    case Some(p) =>
      if p.key in keys then None
      else
        var colon := Skip(p.rest);
        if !Starts(colon, COLON) then None
        else
          match ParseValue(colon[1..])
          case None => None
          case Some(after) =>
            var u := Skip(after);
            if Starts(u, CLOSE_BRACE) then Some(u[1..])
            else if Starts(u, COMMA) then ParseMembers(u[1..], keys + {p.key})
            else None
  }

  function ParseElements(t: Text): (r: Option<Text>)
    ensures r.Some? ==> |r.value| < |t|
    decreases |t|, 2
  {
    match ParseValue(t)
    case None => None
    case Some(after) =>
      var u := Skip(after);
      if Starts(u, CLOSE_BRACKET) then Some(u[1..])
      else if Starts(u, COMMA) then ParseElements(u[1..])
      else None
  }

  /** One value, and nothing but white space after it. */
  predicate Accepts(t: Text) {
    var r := ParseValue(t);
    r.Some? && Skip(r.value) == []
  }
}
