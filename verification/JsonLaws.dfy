/** What the recogniser accepts: exactly the printed trees without duplicate member names. */
module JsonLaws {
  import opened Common
  import opened JsonText
  import opened JsonRecogniser

  // ---------------------------------------------------------------- tokens

  lemma {:induction false} SkipSpaces(w: Text, t: Text)
    requires AllSpace(w) && (t == [] || !IsSpace(t[0]))
    ensures Skip(w + t) == t
  {
    if w == [] {
      assert w + t == t;
    } else {
      assert (w + t)[1..] == w[1..] + t;
      SkipSpaces(w[1..], t);
    }
  }

  lemma {:induction false} SkipSplit(t: Text) returns (w: Text)
    ensures AllSpace(w) && t == w + Skip(t)
  {
    if t != [] && IsSpace(t[0]) {
      var v := SkipSplit(t[1..]);
      w := [t[0]] + v;
      assert t == [t[0]] + t[1..];
    } else {
      w := [];
    }
  }

  lemma {:induction false} DropAllDigits(d: Text, t: Text)
    requires AllDigits(d) && (t == [] || !IsDigit(t[0]))
    ensures DropDigits(d + t) == t
  {
    if d == [] {
      assert d + t == t;
    } else {
      assert (d + t)[1..] == d[1..] + t;
      DropAllDigits(d[1..], t);
    }
  }

  lemma {:induction false} DigitsSplit(t: Text) returns (d: Text)
    ensures AllDigits(d) && t == d + DropDigits(t)
    ensures t != [] && IsDigit(t[0]) ==> d != [] && d[0] == t[0]
  {
    if t != [] && IsDigit(t[0]) {
      var e := DigitsSplit(t[1..]);
      d := [t[0]] + e;
      assert t == [t[0]] + t[1..];
    } else {
      d := [];
    }
  }

  /** The closing quote of a string is found where the printer put it. */
  lemma {:induction false} BodyEndsAtQuote(b: Text, t: Text)
    requires Unescape(b).Some?
    ensures BodyLength(b + ([QUOTE] + t)) == Some(|b|)
    decreases |b|
  {
    var s := b + ([QUOTE] + t);
    if b == [] {
      assert s == [QUOTE] + t;
    } else if b[0] == BACKSLASH {
      assert s[2..] == b[2..] + ([QUOTE] + t);
      if ShortEscape(b[1]).Some? {
        BodyEndsAtQuote(b[2..], t);
      } else {
        HexIsPlain(b, t);
      }
    } else {
      assert s[1..] == b[1..] + ([QUOTE] + t);
      BodyEndsAtQuote(b[1..], t);
    }
  }

  /** The four digits of an escape are neither quotes nor backslashes, so they are stepped over. */
  lemma HexIsPlain(b: Text, t: Text)
    requires |b| >= 6 && FourHex(b) && Unescape(b[6..]).Some?
    ensures BodyLength(b[2..] + ([QUOTE] + t)) == Some(|b| - 2)
    decreases |b|, 0
  {
    BodyEndsAtQuote(b[6..], t);
    var s := b[2..] + ([QUOTE] + t);
    assert s[4..] == b[6..] + ([QUOTE] + t);
    OverPlain(s[3..]);
    OverPlain(s[2..]);
    OverPlain(s[1..]);
    OverPlain(s);
    assert s[3..][1..] == s[4..] && s[2..][1..] == s[3..] && s[1..][1..] == s[2..];
  }

  lemma OverPlain(s: Text)
    requires s != [] && s[0] != QUOTE && s[0] != BACKSLASH && BodyLength(s[1..]).Some?
    ensures BodyLength(s) == Some(BodyLength(s[1..]).value + 1)
  {
  }

  lemma StringComplete(b: Text, t: Text)
    requires Unescape(b).Some?
    ensures ParseString(PrintString(b, t)) == Some(Parsed(Unescape(b).value, t))
  {
    BodyEndsAtQuote(b, t);
    var s := PrintString(b, t);
    assert s[1..] == b + ([QUOTE] + t);
    assert s[1..][..|b|] == b && s[1..][|b| + 1..] == t;
  }

  lemma StringSound(s: Text) returns (b: Text)
    requires ParseString(s).Some?
    ensures Unescape(b) == Some(ParseString(s).value.key) && s == PrintString(b, ParseString(s).value.rest)
  {
    var n := BodyLength(s[1..]).value;
    b := s[1..][..n];
    assert s[1..] == b + ([QUOTE] + s[1..][n + 1..]);
    assert s == [QUOTE] + s[1..];
  }

  // ---------------------------------------------------------------- numbers

  /** A unit that could make a number longer. */
  predicate Continues(u: Unit) {
    IsDigit(u) || u == DOT || u == LOWER_E || u == UPPER_E
  }

  /** What ends a number: nothing that could continue it. */
  predicate Delimited(t: Text) {
    t == [] || !Continues(t[0])
  }

  lemma ExponentComplete(e: Option<Exponent>, t: Text)
    requires Delimited(t) && (e.Some? ==> IsExponent(e.value))
    ensures AfterExponent(PrintExponent(e, t)) == t
  {
    if e.Some? {
      var x := e.value;
      var signed := x.sign + (x.digits + t);
      assert PrintExponent(e, t)[1..] == signed;
      if x.sign != [] {
        assert signed[1..] == x.digits + t;
      } else {
        assert signed == x.digits + t;
      }
      assert (x.digits + t)[0] == x.digits[0];
      DropAllDigits(x.digits, t);
    }
  }

  lemma FractionComplete(n: Number, t: Text)
    requires Delimited(t) && IsNumber(n)
    ensures var tail := PrintExponent(n.exponent, t);
      AfterFraction(if n.fraction.None? then tail else [DOT] + (n.fraction.value + tail)) == tail
  {
    var tail := PrintExponent(n.exponent, t);
    if n.fraction.Some? {
      var s := [DOT] + (n.fraction.value + tail);
      assert s[1..] == n.fraction.value + tail && s[1] == n.fraction.value[0];
      DropAllDigits(n.fraction.value, tail);
    }
  }

  lemma WholeComplete(d: Text, t: Text)
    requires IsWhole(d) && (t == [] || !IsDigit(t[0]))
    ensures AfterWhole(d + t) == Some(t) && !Starts(d + t, MINUS)
  {
    assert (d + t)[0] == d[0];
    assert (d + t)[1..] == d[1..] + t;
    if d != [ZERO] {
      DropAllDigits(d[1..], t);
    } else {
      assert d[1..] + t == t;
    }
  }

  lemma NumberComplete(n: Number, t: Text)
    requires Delimited(t) && IsNumber(n)
    ensures ParseNumber(PrintNumber(n, t)) == Some(t)
  {
    var tail := PrintExponent(n.exponent, t);
    var fraction := if n.fraction.None? then tail else [DOT] + (n.fraction.value + tail);
    WholeComplete(n.whole, fraction);
    if n.minus {
      assert PrintNumber(n, t)[1..] == n.whole + fraction;
    }
    FractionComplete(n, t);
    ExponentComplete(n.exponent, t);
  }

  lemma ExponentSound(s: Text) returns (e: Option<Exponent>)
    ensures (e.Some? ==> IsExponent(e.value)) && s == PrintExponent(e, AfterExponent(s))
  {
    e := None;
    if AfterExponent(s) != s {
      var signed := s[1..];
      var sign: Text := if Starts(signed, PLUS) then [PLUS] else if Starts(signed, MINUS) then [MINUS] else [];
      var digits := if sign != [] then signed[1..] else signed;
      var d := DigitsSplit(digits);
      e := Some(Exponent(s[0], sign, d));
      assert signed == sign + digits && s == [s[0]] + signed;
    }
  }

  lemma FractionSound(s: Text) returns (f: Option<Text>)
    ensures f.Some? ==> f.value != [] && AllDigits(f.value)
    ensures s == if f.None? then AfterFraction(s) else [DOT] + (f.value + AfterFraction(s))
  {
    f := None;
    if Starts(s, DOT) && |s| > 1 && IsDigit(s[1]) {
      var d := DigitsSplit(s[1..]);
      f := Some(d);
      assert s == [DOT] + s[1..];
    }
  }

  lemma WholeSound(s: Text) returns (d: Text)
    requires AfterWhole(s).Some?
    ensures IsWhole(d) && s == d + AfterWhole(s).value
  {
    if Starts(s, ZERO) {
      d := [ZERO];
      assert s == [ZERO] + s[1..];
    } else {
      d := DigitsSplit(s);
      assert DropDigits(s) == DropDigits(s[1..]);
    }
  }

  lemma NumberSound(s: Text) returns (n: Number)
    requires ParseNumber(s).Some?
    ensures IsNumber(n) && s == PrintNumber(n, ParseNumber(s).value)
  {
    var unsigned := if Starts(s, MINUS) then s[1..] else s;
    var whole := WholeSound(unsigned);
    var afterWhole := AfterWhole(unsigned).value;
    var fraction := FractionSound(afterWhole);
    var exponent := ExponentSound(AfterFraction(afterWhole));
    n := Number(Starts(s, MINUS), whole, fraction, exponent);
    if n.minus {
      assert s == [MINUS] + s[1..];
    }
  }

  lemma LiteralComplete(l: Literal, t: Text)
    ensures ParseLiteral(Word(l) + t) == Some(t)
    ensures var s := Word(l) + t; !Starts(s, OPEN_BRACE) && !Starts(s, OPEN_BRACKET) && !Starts(s, QUOTE) && !IsSpace(s[0])
  {
    var s := Word(l) + t;
    assert s[0] == Word(l)[0];
    assert s[..|Word(l)|] == Word(l) && s[|Word(l)|..] == t;
    if l == Null {
      assert s[..4][0] == 0x6E;
    } else if l == False {
      assert s[..4][0] == 0x66;
    }
  }

  lemma LiteralSound(s: Text) returns (l: Literal)
    requires ParseLiteral(s).Some?
    ensures s == Word(l) + ParseLiteral(s).value
  {
    l := if StartsWith(s, Word(True)) then True else if StartsWith(s, Word(False)) then False else Null;
    assert s == s[..|Word(l)|] + s[|Word(l)|..];
  }

  // ---------------------------------------------------------------- printed trees are recognised

  lemma SkipIsIdempotent(t: Text)
    ensures Skip(Skip(t)) == Skip(t)
  {
  }

  /** White space before a member or an element makes no difference. */
  lemma SkipBefore(t: Text, keys: set<Text>)
    ensures ParseMembers(Skip(t), keys) == ParseMembers(t, keys)
    ensures ParseValue(Skip(t)) == ParseValue(t)
    ensures ParseElements(Skip(t)) == ParseElements(t)
  {
    SkipIsIdempotent(t);
  }

  predicate Ends(v: Value, t: Text) {
    v.Num? ==> Delimited(t)
  }

  lemma PrintStarts(v: Value, t: Text)
    requires WellFormed(v)
    ensures Print(v, t) != [] && !IsSpace(Print(v, t)[0])
    ensures Print(v, t)[0] != CLOSE_BRACE && Print(v, t)[0] != CLOSE_BRACKET
  {
    if v.Num? {
      assert PrintNumber(v.number, t)[0] == if v.number.minus then MINUS else v.number.whole[0];
    } else if v.Lit? {
      LiteralComplete(v.literal, t);
      assert Print(v, t)[0] == Word(v.literal)[0];
    }
  }

  lemma LiteralStarts(s: Text)
    ensures ParseLiteral(s).Some? ==> s != [] && exists l :: s[0] == Word(l)[0]
  {
    if ParseLiteral(s).Some? {
      var l := LiteralSound(s);
      assert s[0] == Word(l)[0];
    }
  }

  lemma NumberStarts(n: Number, t: Text)
    requires IsNumber(n)
    ensures var s := PrintNumber(n, t);
      !Starts(s, OPEN_BRACE) && !Starts(s, OPEN_BRACKET) && !Starts(s, QUOTE) && ParseLiteral(s).None?
  {
    var s := PrintNumber(n, t);
    assert s[0] == if n.minus then MINUS else n.whole[0];
    LiteralStarts(s);
  }

  lemma EmptyComplete(inside: Text, open: Unit, close: Unit, t: Text)
    requires AllSpace(inside) && !IsSpace(close)
    ensures Skip(([open] + (inside + ([close] + t)))[1..]) == [close] + t
  {
    assert ([open] + (inside + ([close] + t)))[1..] == inside + ([close] + t);
    SkipSpaces(inside, [close] + t);
  }

  /**
   * A printed tree is read to exactly its end when its names are unique, and refused otherwise;
   * `t` is whatever follows it.
   */
  lemma {:induction false} ValueComplete(w: Text, v: Value, t: Text)
    requires AllSpace(w) && WellFormed(v) && Ends(v, t)
    ensures ParseValue(w + Print(v, t)) == if UniqueNames(v) then Some(t) else None
    decreases v
  {
    PrintStarts(v, t);
    SkipSpaces(w, Print(v, t));
    var u := Print(v, t);
    match v
    case EmptyObject(inside) => EmptyComplete(inside, OPEN_BRACE, CLOSE_BRACE, t);
    case EmptyArray(inside) => EmptyComplete(inside, OPEN_BRACKET, CLOSE_BRACKET, t);
    case Object(ms) =>
      assert u[1..] == PrintMembers(ms, t);
      MembersStart(ms, t);
      MembersComplete(ms, t, {});
      SkipBefore(PrintMembers(ms, t), {});
    case Array(es) =>
      assert u[1..] == PrintElements(es, t);
      ElementsStart(es, t);
      ElementsComplete(es, t);
      SkipBefore(PrintElements(es, t), {});
    case String(body) => StringComplete(body, t);
    case Num(n) =>
      NumberStarts(n, t);
      NumberComplete(n, t);
    case Lit(l) => LiteralComplete(l, t);
  }

  lemma MembersStart(ms: Members, t: Text)
    requires WellFormedMembers(ms)
    ensures Starts(Skip(PrintMembers(ms, t)), QUOTE)
  {
    var m := ms.member;
    var tail := if ms.Last? then [CLOSE_BRACE] + t else [COMMA] + PrintMembers(ms.rest, t);
    SkipSpaces(m.before, PrintString(m.key, m.afterKey + ([COLON] + (m.beforeValue + Print(m.value, m.after + tail)))));
  }

  lemma ElementsStart(es: Elements, t: Text)
    requires WellFormedElements(es)
    ensures !Starts(Skip(PrintElements(es, t)), CLOSE_BRACKET)
  {
    var e := es.element;
    var tail := if es.LastElement? then [CLOSE_BRACKET] + t else [COMMA] + PrintElements(es.rest, t);
    PrintStarts(e.value, e.after + tail);
    SkipSpaces(e.before, Print(e.value, e.after + tail));
  }

  /** The white space after a value, and the sign that follows it. */
  lemma AfterValue(after: Text, sign: Unit, t: Text)
    requires AllSpace(after) && !IsSpace(sign) && (sign == COMMA || sign == CLOSE_BRACE || sign == CLOSE_BRACKET)
    ensures Delimited(after + ([sign] + t)) && Skip(after + ([sign] + t)) == [sign] + t
  {
    SkipSpaces(after, [sign] + t);
  }

  /** One member read up to what follows its value. */
  lemma MemberComplete(m: Member, t: Text)
    requires WellFormedMember(m)
    ensures ParseString(Skip(PrintMember(m, t))) ==
      Some(Parsed(Name(m), m.afterKey + ([COLON] + (m.beforeValue + Print(m.value, m.after + t)))))
    ensures Skip(m.afterKey + ([COLON] + (m.beforeValue + Print(m.value, m.after + t)))) ==
      [COLON] + (m.beforeValue + Print(m.value, m.after + t))
  {
    var value := m.beforeValue + Print(m.value, m.after + t);
    SkipSpaces(m.before, PrintString(m.key, m.afterKey + ([COLON] + value)));
    StringComplete(m.key, m.afterKey + ([COLON] + value));
    SkipSpaces(m.afterKey, [COLON] + value);
  }

  /** One turn of the member loop. */
  lemma MemberTurn(m: Member, sign: Unit, follow: Text, keys: set<Text>)
    requires WellFormedMember(m) && (sign == CLOSE_BRACE || sign == COMMA)
    requires ParseValue(m.beforeValue + Print(m.value, m.after + ([sign] + follow)))
             == if UniqueNames(m.value) then Some(m.after + ([sign] + follow)) else None
    ensures ParseMembers(PrintMember(m, [sign] + follow), keys) ==
            if Name(m) in keys || !UniqueNames(m.value) then None
            else if sign == CLOSE_BRACE then Some(follow) else ParseMembers(follow, keys + {Name(m)})
  {
    var value := m.beforeValue + Print(m.value, m.after + ([sign] + follow));
    MemberComplete(m, [sign] + follow);
    assert ([COLON] + value)[1..] == value;
    AfterValue(m.after, sign, follow);
    assert ([sign] + follow)[1..] == follow;
  }

  lemma {:induction false} MembersComplete(ms: Members, t: Text, keys: set<Text>)
    requires WellFormedMembers(ms)
    ensures ParseMembers(PrintMembers(ms, t), keys) == if UniqueInMembers(ms) && Names(ms) !! keys then Some(t) else None
    decreases ms
  {
    var m := ms.member;
    var sign := if ms.Last? then CLOSE_BRACE else COMMA;
    var follow := if ms.Last? then t else PrintMembers(ms.rest, t);
    AfterValue(m.after, sign, follow);
    ValueComplete(m.beforeValue, m.value, m.after + ([sign] + follow));
    MemberTurn(m, sign, follow, keys);
    if ms.More? {
      MembersComplete(ms.rest, t, keys + {Name(m)});
    }
  }

  lemma {:induction false} ElementsComplete(es: Elements, t: Text)
    requires WellFormedElements(es)
    ensures ParseElements(PrintElements(es, t)) == if UniqueInElements(es) then Some(t) else None
    decreases es
  {
    var e := es.element;
    var sign := if es.LastElement? then CLOSE_BRACKET else COMMA;
    var follow := if es.LastElement? then t else PrintElements(es.rest, t);
    AfterValue(e.after, sign, follow);
    ValueComplete(e.before, e.value, e.after + ([sign] + follow));
    assert ([sign] + follow)[1..] == follow;
    if es.MoreElements? {
      ElementsComplete(es.rest, t);
    }
  }

  // ---------------------------------------------------------------- whatever is recognised is a printed tree

  lemma {:induction false} ValueSound(s: Text) returns (w: Text, v: Value)
    requires ParseValue(s).Some?
    ensures AllSpace(w) && WellFormed(v) && UniqueNames(v) && s == w + Print(v, ParseValue(s).value)
    decreases |s|, 1
  {
    w := SkipSplit(s);
    var u := Skip(s);
    SkipBefore(s, {});
    SkipIsIdempotent(s);
    if Starts(u, OPEN_BRACE) {
      v := ObjectSound(u);
    } else if Starts(u, OPEN_BRACKET) {
      v := ArraySound(u);
    } else if Starts(u, QUOTE) {
      var b := StringSound(u);
      v := String(b);
    } else if ParseLiteral(u).Some? {
      var l := LiteralSound(u);
      v := Lit(l);
    } else {
      var n := NumberSound(u);
      v := Num(n);
    }
  }

  lemma ObjectSound(u: Text) returns (v: Value)
    requires Starts(u, OPEN_BRACE) && ParseValue(u).Some?
    ensures WellFormed(v) && UniqueNames(v) && u == Print(v, ParseValue(u).value)
    decreases |u|, 0
  {
    assert Skip(u) == u && u == [OPEN_BRACE] + u[1..];
    var x := Skip(u[1..]);
    if Starts(x, CLOSE_BRACE) {
      var inside := SkipSplit(u[1..]);
      v := EmptyObject(inside);
      assert x == [CLOSE_BRACE] + x[1..];
    } else {
      SkipBefore(u[1..], {});
      var ms := MembersSound(u[1..], {});
      v := Object(ms);
    }
  }

  lemma ArraySound(u: Text) returns (v: Value)
    requires Starts(u, OPEN_BRACKET) && ParseValue(u).Some?
    ensures WellFormed(v) && UniqueNames(v) && u == Print(v, ParseValue(u).value)
    decreases |u|, 0
  {
    assert Skip(u) == u && u == [OPEN_BRACKET] + u[1..];
    var x := Skip(u[1..]);
    if Starts(x, CLOSE_BRACKET) {
      var inside := SkipSplit(u[1..]);
      v := EmptyArray(inside);
      assert x == [CLOSE_BRACKET] + x[1..];
    } else {
      SkipBefore(u[1..], {});
      var es := ElementsSound(u[1..]);
      v := Array(es);
    }
  }

  lemma {:induction false} MembersSound(s: Text, keys: set<Text>) returns (ms: Members)
    requires ParseMembers(s, keys).Some?
    ensures WellFormedMembers(ms) && UniqueInMembers(ms) && Names(ms) !! keys
    ensures s == PrintMembers(ms, ParseMembers(s, keys).value)
    decreases |s|, 2
  {
    var m, u := MemberSound(s, keys);
    var end := ParseMembers(s, keys).value;
    if Starts(u, CLOSE_BRACE) {
      ms := Last(m);
      assert u == [CLOSE_BRACE] + u[1..];
    } else {
      var others := MembersSound(u[1..], keys + {Name(m)});
      ms := More(m, others);
      assert u == [COMMA] + u[1..];
      MoreMembers(m, others, u, end, keys);
    }
  }

  lemma MoreMembers(m: Member, others: Members, u: Text, end: Text, keys: set<Text>)
    requires WellFormedMember(m) && UniqueNames(m.value) && Name(m) !in keys
    requires WellFormedMembers(others) && UniqueInMembers(others) && Names(others) !! keys + {Name(m)}
    requires u == [COMMA] + PrintMembers(others, end)
    ensures var ms := More(m, others);
      WellFormedMembers(ms) && UniqueInMembers(ms) && Names(ms) !! keys && PrintMembers(ms, end) == PrintMember(m, u)
  {
  }

  /** What follows a name and its colon. */
  function AfterColon(t: Text, keys: set<Text>): Option<Text> {
    match ParseValue(t)
    case None => None
    case Some(after) =>
      var u := Skip(after);
      if Starts(u, CLOSE_BRACE) then Some(u[1..])
      else if Starts(u, COMMA) then ParseMembers(u[1..], keys)
      else None
  }

  /** A name not seen before and its colon. */
  lemma KeySound(s: Text, keys: set<Text>) returns (before: Text, key: Text, afterKey: Text, t: Text)
    requires ParseMembers(s, keys).Some?
    ensures AllSpace(before) && AllSpace(afterKey) && Unescape(key).Some? && Unescape(key).value !in keys
    ensures s == before + PrintString(key, afterKey + ([COLON] + t)) && |t| < |s|
    ensures ParseMembers(s, keys) == AfterColon(t, keys + {Unescape(key).value})
  {
    before := SkipSplit(s);
    key := StringSound(Skip(s));
    var p := ParseString(Skip(s)).value;
    afterKey := SkipSplit(p.rest);
    var colon := Skip(p.rest);
    t := colon[1..];
    assert colon == [COLON] + t;
  }

  /** One member and the sign after it. */
  lemma MemberSound(s: Text, keys: set<Text>) returns (m: Member, u: Text)
    requires ParseMembers(s, keys).Some?
    ensures WellFormedMember(m) && UniqueNames(m.value) && Name(m) !in keys
    ensures s == PrintMember(m, u) && |u| < |s|
    ensures Starts(u, CLOSE_BRACE) || Starts(u, COMMA)
    ensures ParseMembers(s, keys) == if Starts(u, CLOSE_BRACE) then Some(u[1..]) else ParseMembers(u[1..], keys + {Name(m)})
    decreases |s|, 1
  {
    var before, key, afterKey, t := KeySound(s, keys);
    var beforeValue, value := ValueSound(t);
    var rest := ParseValue(t).value;
    var after := SkipSplit(rest);
    u := Skip(rest);
    m := Member(before, key, afterKey, beforeValue, value, after);
  }

  lemma {:induction false} ElementsSound(s: Text) returns (es: Elements)
    requires ParseElements(s).Some?
    ensures WellFormedElements(es) && UniqueInElements(es)
    ensures s == PrintElements(es, ParseElements(s).value)
    decreases |s|, 2
  {
    var before, value := ValueSound(s);
    var rest := ParseValue(s).value;
    var after := SkipSplit(rest);
    var u := Skip(rest);
    assert u == [u[0]] + u[1..];
    var e := Element(before, value, after);
    if Starts(u, CLOSE_BRACKET) {
      es := LastElement(e);
    } else {
      var others := ElementsSound(u[1..]);
      es := MoreElements(e, others);
    }
  }

  // ---------------------------------------------------------------- the laws

  /** White space, a tree and white space. */
  predicate IsDocument(t: Text, w: Text, v: Value, x: Text) {
    AllSpace(w) && WellFormed(v) && AllSpace(x) && t == w + Print(v, x)
  }

  lemma SpaceEnds(x: Text)
    requires AllSpace(x)
    ensures Delimited(x) && Skip(x) == []
  {
    assert x + [] == x;
    SkipSpaces(x, []);
  }

  /** A printed document is accepted exactly when no object in it repeats a name. */
  lemma PrintedDocument(t: Text, w: Text, v: Value, x: Text)
    requires IsDocument(t, w, v, x)
    ensures Accepts(t) <==> UniqueNames(v)
  {
    SpaceEnds(x);
    ValueComplete(w, v, x);
  }

  /** Nothing else is accepted: not another grammar, and not a document with anything after it. */
  lemma AcceptsExactly(t: Text)
    ensures Accepts(t) <==> exists w, v, x :: IsDocument(t, w, v, x) && UniqueNames(v)
  {
    if Accepts(t) {
      var w, v := ValueSound(t);
      var x := SkipSplit(ParseValue(t).value);
      assert x + [] == x;
      assert IsDocument(t, w, v, x) && UniqueNames(v);
    }
    if w, v, x :| IsDocument(t, w, v, x) && UniqueNames(v) {
      PrintedDocument(t, w, v, x);
    }
  }

  /** Two texts that begin with white space are split alike where the white space ends. */
  lemma SameSplit(w: Text, a: Text, w': Text, b: Text)
    requires AllSpace(w) && AllSpace(w') && a != [] && b != [] && !IsSpace(a[0]) && !IsSpace(b[0])
    requires w + a == w' + b
    ensures w == w' && a == b
  {
    SkipSpaces(w, a);
    SkipSpaces(w', b);
    assert Skip(a) == a && Skip(b) == b;
    assert |w| == |w'|;
    assert w == (w + a)[..|w|] && w' == (w' + b)[..|w'|];
  }

  /** What is printed tells a number from every other value. */
  lemma OnlyNumbersStartLikeNumbers(n: Number, t: Text, v: Value, x: Text)
    requires IsNumber(n) && WellFormed(v) && PrintNumber(n, t) == Print(v, x)
    ensures v.Num?
  {
    NumberStarts(n, t);
    if v.Lit? {
      LiteralComplete(v.literal, x);
    }
  }

  /** Read on, the text of a number is that of one number, and only white space after it. */
  ghost predicate GoesOnAsNumber(n: Number, rest: Text) {
    exists longer, x :: IsNumber(longer) && AllSpace(x) && PrintNumber(n, rest) == PrintNumber(longer, x)
  }

  lemma NumberDocument(w: Text, n: Number, rest: Text)
    requires AllSpace(w) && IsNumber(n)
    ensures Accepts(w + Print(Num(n), rest)) <==> GoesOnAsNumber(n, rest)
  {
    var t := w + Print(Num(n), rest);
    AcceptsExactly(t);
    if Accepts(t) {
      var w', v, x :| IsDocument(t, w', v, x) && UniqueNames(v);
      PrintStarts(Num(n), rest);
      PrintStarts(v, x);
      SameSplit(w, Print(Num(n), rest), w', Print(v, x));
      OnlyNumbersStartLikeNumbers(n, rest, v, x);
      assert PrintNumber(n, rest) == PrintNumber(v.number, x);
    }
    if GoesOnAsNumber(n, rest) {
      var longer, x :| IsNumber(longer) && AllSpace(x) && PrintNumber(n, rest) == PrintNumber(longer, x);
      assert IsDocument(t, w, Num(longer), x) && UniqueNames(Num(longer));
    }
  }

  lemma SeparatedContentRefused(w: Text, v: Value, x: Text, u: Unit, t: Text)
    requires AllSpace(w) && WellFormed(v) && AllSpace(x) && !IsSpace(u) && (v.Num? ==> x != [])
    ensures !Accepts(w + Print(v, x + ([u] + t)))
  {
    if x != [] {
      assert (x + ([u] + t))[0] == x[0];
    }
    ValueComplete(w, v, x + ([u] + t));
    SkipSpaces(x, [u] + t);
  }

  /**
   * A document with anything but white space after it is refused, with or without white space in
   * between. The one exception is a number whose text just goes on and is that of another number:
   * so 12 is accepted, while 01, 1.x and 1e are refused.
   */
  lemma TrailingContentRefused(w: Text, v: Value, x: Text, u: Unit, t: Text)
    requires AllSpace(w) && WellFormed(v) && AllSpace(x) && !IsSpace(u)
    ensures Accepts(w + Print(v, x + ([u] + t))) <==> v.Num? && x == [] && GoesOnAsNumber(v.number, [u] + t)
  {
    if v.Num? && x == [] {
      assert x + ([u] + t) == [u] + t;
      NumberDocument(w, v.number, [u] + t);
    } else {
      SeparatedContentRefused(w, v, x, u, t);
    }
  }

  /** A number goes on only with a digit, a point or an exponent. */
  lemma NothingElseGoesOn(n: Number, u: Unit, t: Text)
    requires IsNumber(n) && GoesOnAsNumber(n, [u] + t) && !IsSpace(u)
    ensures Continues(u)
  {
    var longer, x :| IsNumber(longer) && AllSpace(x) && PrintNumber(n, [u] + t) == PrintNumber(longer, x);
    SpaceEnds(x);
    NumberComplete(longer, x);
    if !Continues(u) {
      NumberComplete(n, [u] + t);
    }
  }

  /** Which numbers go on is found by matching the number pattern once more. */
  lemma GoesOnExactly(n: Number, rest: Text)
    ensures GoesOnAsNumber(n, rest) <==>
      (var r := ParseNumber(PrintNumber(n, rest)); r.Some? && AllSpace(r.value))
  {
    var r := ParseNumber(PrintNumber(n, rest));
    if GoesOnAsNumber(n, rest) {
      var longer, x :| IsNumber(longer) && AllSpace(x) && PrintNumber(n, rest) == PrintNumber(longer, x);
      SpaceEnds(x);
      NumberComplete(longer, x);
    }
    if r.Some? && AllSpace(r.value) {
      var longer := NumberSound(PrintNumber(n, rest));
    }
  }

  /** 0 before another digit, 1 before ".x", 1 before "e". */
  predicate BreaksOff(n: Number, rest: Text) {
    || (n == Number(false, [ZERO], None, None) && rest != [] && IsDigit(rest[0]))
    || (n == Number(false, [0x31], None, None) && (rest == [DOT, 0x78] || rest == [LOWER_E]))
  }

  /** A leading zero, a point without digits and an exponent without digits all end the number too early. */
  lemma NumbersThatBreakOff(n: Number, rest: Text)
    requires BreaksOff(n, rest)
    ensures !GoesOnAsNumber(n, rest)
  {
    GoesOnExactly(n, rest);
    var t := n.whole + rest;
    assert t[0] == n.whole[0] && t[1..] == rest && PrintNumber(n, rest) == t;
  }
}
