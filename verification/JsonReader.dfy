/** The recogniser in its own form: one position moving through the text. */
module JsonReader {
  import opened Common
  import opened JsonText
  import opened JsonRecogniser

  class Reader {
    const text: Text
    var position: nat

    constructor (text: Text)
      ensures this.text == text && position == 0
    {
      this.text := text;
      position := 0;
    }

    ghost function Remaining(): Text
      reads this
      requires position <= |text|
    {
      text[position..]
    }

    predicate LooksAt(u: Unit)
      reads this
    {
      position < |text| && text[position] == u
    }

    method SkipWhitespace()
      requires position <= |text|
      modifies this
      ensures position <= |text| && Remaining() == Skip(old(Remaining())) && position >= old(position)
    {
      while position < |text| && IsSpace(text[position])
        invariant old(position) <= position <= |text|
        invariant Skip(Remaining()) == Skip(old(Remaining()))
      {
        assert Remaining()[1..] == text[position + 1..];
        position := position + 1;
      }
    }

    /** The scan for the closing quote, stepping over escaped units. */
    method PassQuote() returns (found: bool)
      requires position <= |text|
      modifies this
      ensures found <==> BodyLength(old(Remaining())).Some?
      ensures found ==> position == old(position) + BodyLength(old(Remaining())).value + 1 <= |text|
    {
      ghost var start, was := position, Remaining();
      while position < |text|
        invariant start <= position
        invariant BodyLength(was) == Plus(position - start, QuoteFrom(text, position))
      {
        QuoteAhead(text, position);
        if text[position] == BACKSLASH {
          position := position + 2;
          continue;
        }
        if text[position] == QUOTE {
          position := position + 1;
          return true;
        }
        position := position + 1;
      }
      return false;
    }

    /** The string at the position, unescaped; None when an error is thrown. */
    method ReadString() returns (r: Option<Text>)
      requires position <= |text|
      modifies this
      ensures r.Some? <==> ParseString(old(Remaining())).Some?
      ensures r.Some? ==> old(position) < position <= |text|
      ensures r.Some? ==> ParseString(old(Remaining())) == Some(Parsed(r.value, Remaining()))
    {
      ghost var was := Remaining();
      var start := position;
      if !LooksAt(QUOTE) {
        return None;
      }
      position := position + 1;
      assert Remaining() == was[1..];
      var found := PassQuote();
      if !found {
        return None;
      }
      assert was[1..][..position - start - 2] == text[start + 1..position - 1];
      assert was[1..][position - start - 1..] == text[position..];
      return Unescape(text[start + 1..position - 1]);
    }

    /** Reads one value, if there is one without duplicate names at any depth. */
    method ReadValue() returns (ok: bool)
      requires position <= |text|
      modifies this
      ensures ok <==> ParseValue(old(Remaining())).Some?
      ensures ok ==> old(position) < position <= |text| && ParseValue(old(Remaining())) == Some(Remaining())
      decreases |text| - position, 1
    {
      SkipWhitespace();
      if LooksAt(OPEN_BRACE) {
        ok := ReadObject();
      } else if LooksAt(OPEN_BRACKET) {
        ok := ReadArray();
      } else if LooksAt(QUOTE) {
        var s := ReadString();
        ok := s.Some?;
      } else {
        ok := ReadPlain();
      }
    }

    /** A literal, else a number: the longest match of the number pattern at the position. */
    method ReadPlain() returns (ok: bool)
      requires position <= |text|
      modifies this
      ensures var t := old(Remaining());
        var r := if ParseLiteral(t).Some? then ParseLiteral(t) else ParseNumber(t);
        && (ok <==> r.Some?)
        && (ok ==> old(position) < position <= |text| && r == Some(Remaining()))
    {
      var rest := text[position..];
      var literals := Words();
      for i := 0 to |literals|
        invariant position == old(position)
        invariant forall j :: 0 <= j < i ==> !StartsWith(rest, literals[j])
      {
        if StartsWith(rest, literals[i]) {
          LiteralByTurn(rest, i);
          position := position + |literals[i]|;
          assert Remaining() == rest[|literals[i]|..];
          return true;
        }
      }
      assert !StartsWith(rest, literals[0]) && !StartsWith(rest, literals[1]) && !StartsWith(rest, literals[2]);
      var after := ParseNumber(rest);
      if after.None? {
        return false;
      }
      NumberIsPrefix(rest);
      position := |text| - |after.value|;
      assert Remaining() == rest[|rest| - |after.value|..];
      return true;
    }

    /** A name not seen before in this object, and its colon. */
    method ReadKey(keys: set<Text>) returns (key: Option<Text>)
      requires position <= |text|
      modifies this
      ensures key.Some? <==> KeyOf(old(Remaining()), keys).Some?
      ensures key.Some? ==> old(position) < position <= |text|
      ensures key.Some? ==> KeyOf(old(Remaining()), keys) == Some(Parsed(key.value, Remaining()))
    {
      SkipWhitespace();
      key := ReadString();
      if key.None? || key.value in keys {
        return None;
      }
      SkipWhitespace();
      if !LooksAt(COLON) {
        return None;
      }
      assert Remaining()[1..] == text[position + 1..];
      position := position + 1;
    }

    /** What may stand after a value inside an object or array: its end or a comma. */
    method ReadSeparator(close: Unit, key: Text) returns (turn: Turn)
      requires position <= |text|
      modifies this
      ensures turn.Thrown? <==> AfterItem(old(Remaining()), close, key).None?
      ensures !turn.Thrown? ==> old(position) < position <= |text|
      ensures !turn.Thrown? ==> AfterItem(old(Remaining()), close, key) == Some((turn, Remaining()))
    {
      SkipWhitespace();
      if !LooksAt(close) && !LooksAt(COMMA) {
        return Thrown;
      }
      assert Remaining()[1..] == text[position + 1..];
      turn := if LooksAt(close) then Done else Again(key);
      position := position + 1;
    }

    /** One turn of the member loop. */
    method ReadMember(keys: set<Text>) returns (turn: Turn)
      requires position <= |text|
      modifies this
      ensures turn.Thrown? <==> TurnOfMembers(old(Remaining()), keys).None?
      ensures !turn.Thrown? ==> old(position) < position <= |text|
      ensures !turn.Thrown? ==> TurnOfMembers(old(Remaining()), keys) == Some((turn, Remaining()))
      decreases |text| - position, 3
    {
      var key := ReadKey(keys);
      if key.None? {
        return Thrown;
      }
      var ok := ReadValue();
      if !ok {
        return Thrown;
      }
      turn := ReadSeparator(CLOSE_BRACE, key.value);
    }

    method ReadObject() returns (ok: bool)
      requires LooksAt(OPEN_BRACE)
      modifies this
      ensures ok <==> ParseValue(old(Remaining())).Some?
      ensures ok ==> old(position) < position <= |text| && ParseValue(old(Remaining())) == Some(Remaining())
      decreases |text| - position, 0
    {
      ghost var was := Remaining();
      OpensObject(was);
      assert was[1..] == text[position + 1..];
      position := position + 1;
      SkipWhitespace();
      var keys: set<Text> := {};
      if LooksAt(CLOSE_BRACE) {
        assert Remaining()[1..] == text[position + 1..];
        position := position + 1;
        return true;
      }
      while position < |text|
        invariant old(position) < position <= |text|
        invariant ParseValue(was) == ParseMembers(Remaining(), keys)
      {
        MembersByTurns(Remaining(), keys);
        var turn := ReadMember(keys);
        match turn {
          case Thrown => return false;
          case Done => return true;
          case Again(key) => keys := keys + {key};
        }
      }
      return false;
    }

    method ReadElement() returns (turn: Turn)
      requires position <= |text|
      modifies this
      ensures turn.Thrown? <==> TurnOfElements(old(Remaining())).None?
      ensures !turn.Thrown? ==> old(position) < position <= |text|
      ensures !turn.Thrown? ==> TurnOfElements(old(Remaining())) == Some((turn, Remaining()))
      decreases |text| - position, 3
    {
      var ok := ReadValue();
      if !ok {
        return Thrown;
      }
      turn := ReadSeparator(CLOSE_BRACKET, []);
    }

    method ReadArray() returns (ok: bool)
      requires LooksAt(OPEN_BRACKET)
      modifies this
      ensures ok <==> ParseValue(old(Remaining())).Some?
      ensures ok ==> old(position) < position <= |text| && ParseValue(old(Remaining())) == Some(Remaining())
      decreases |text| - position, 0
    {
      ghost var was := Remaining();
      OpensArray(was);
      assert was[1..] == text[position + 1..];
      position := position + 1;
      SkipWhitespace();
      if LooksAt(CLOSE_BRACKET) {
        assert Remaining()[1..] == text[position + 1..];
        position := position + 1;
        return true;
      }
      while position < |text|
        invariant old(position) < position <= |text|
        invariant ParseValue(was) == ParseElements(Remaining())
      {
        ElementsByTurns(Remaining());
        var turn := ReadElement();
        match turn {
          case Thrown => return false;
          case Done => return true;
          case Again(_) =>
        }
      }
      return false;
    }
  }

  function Words(): seq<Text> {
    [Word(True), Word(False), Word(Null)]
  }

  /** The first word in the list that matches is the literal. */
  lemma LiteralByTurn(t: Text, i: nat)
    requires i < |Words()| && StartsWith(t, Words()[i]) && forall j :: 0 <= j < i ==> !StartsWith(t, Words()[j])
    ensures ParseLiteral(t) == Some(t[|Words()[i]|..])
  {
    if i > 0 {
      assert !StartsWith(t, Words()[0]);
      if i > 1 {
        assert !StartsWith(t, Words()[1]);
      }
    }
  }

  /** How far the closing quote is from a position, which an escape may have moved past the end. */
  function QuoteFrom(text: Text, position: nat): Option<nat> {
    if position <= |text| then BodyLength(text[position..]) else None
  }

  function Plus(n: nat, length: Option<nat>): Option<nat> {
    if length.None? then None else Some(n + length.value)
  }

  /** One step of the search for the closing quote. */
  lemma QuoteAhead(text: Text, position: nat)
    requires position < |text|
    ensures QuoteFrom(text, position) ==
      if text[position] == BACKSLASH then Plus(2, QuoteFrom(text, position + 2))
      else if text[position] == QUOTE then Some(0)
      else Plus(1, QuoteFrom(text, position + 1))
  {
    var t := text[position..];
    assert t[1..] == text[position + 1..];
    if position + 2 <= |text| {
      assert t[2..] == text[position + 2..];
    }
  }

  /** How one turn of a loop ends: an error, the closing sign, or a comma after `key`. */
  datatype Turn = Thrown | Done | Again(key: Text)

  function KeyOf(t: Text, keys: set<Text>): Option<Parsed> {
    match ParseString(Skip(t))
    case None => None
    case Some(p) =>
      if p.key in keys || !Starts(Skip(p.rest), COLON) then None else Some(Parsed(p.key, Skip(p.rest)[1..]))
  }

  /** The separator after a member or an element, and the text behind it. */
  function AfterItem(t: Text, close: Unit, key: Text): (r: Option<(Turn, Text)>)
    ensures r.Some? ==> !r.value.0.Thrown?
  {
    var u := Skip(t);
    if Starts(u, close) then Some((Done, u[1..]))
    else if Starts(u, COMMA) then Some((Again(key), u[1..]))
    else None
  }

  function TurnOfMembers(t: Text, keys: set<Text>): (r: Option<(Turn, Text)>)
    ensures r.Some? ==> !r.value.0.Thrown?
  {
    match KeyOf(t, keys)
    case None => None
    case Some(p) =>
      match ParseValue(p.rest)
      case None => None
      case Some(after) => AfterItem(after, CLOSE_BRACE, p.key)
  }

  function TurnOfElements(t: Text): (r: Option<(Turn, Text)>)
    ensures r.Some? ==> !r.value.0.Thrown?
  {
    match ParseValue(t)
    case None => None
    case Some(after) => AfterItem(after, CLOSE_BRACKET, [])
  }

  lemma MembersByTurns(t: Text, keys: set<Text>)
    ensures ParseMembers(t, keys) ==
      match TurnOfMembers(t, keys)
      case None => None
      case Some((turn, u)) => if turn.Again? then ParseMembers(u, keys + {turn.key}) else Some(u)
  {
  }

  lemma ElementsByTurns(t: Text)
    ensures ParseElements(t) ==
      match TurnOfElements(t)
      case None => None
      case Some((turn, u)) => if turn.Again? then ParseElements(u) else Some(u)
  {
  }

  lemma OpensObject(t: Text)
    requires Starts(t, OPEN_BRACE)
    ensures ParseValue(t) == var x := Skip(t[1..]); if Starts(x, CLOSE_BRACE) then Some(x[1..]) else ParseMembers(x, {})
    ensures ParseMembers([], {}) == None
  {
    assert Skip(t) == t;
  }

  lemma OpensArray(t: Text)
    requires Starts(t, OPEN_BRACKET)
    ensures ParseValue(t) == var x := Skip(t[1..]); if Starts(x, CLOSE_BRACKET) then Some(x[1..]) else ParseElements(x)
  {
    assert Skip(t) == t;
  }

  predicate IsSuffix(a: Text, t: Text) {
    |a| <= |t| && a == t[|t| - |a|..]
  }

  lemma SuffixOfSuffix(a: Text, b: Text, t: Text)
    requires IsSuffix(a, b) && IsSuffix(b, t)
    ensures IsSuffix(a, t)
  {
  }

  /** Sign, digits, fraction and exponent are cut off the front: what remains is a suffix. */
  lemma NumberIsPrefix(t: Text)
    ensures ParseNumber(t).Some? ==> IsSuffix(ParseNumber(t).value, t)
  {
    var u := if Starts(t, MINUS) then t[1..] else t;
    if AfterWhole(u).Some? {
      WholeIsSuffix(u);
      var a := AfterWhole(u).value;
      var b := AfterFraction(a);
      FractionIsSuffix(a);
      ExponentIsSuffix(b);
      SuffixOfSuffix(AfterExponent(b), b, a);
      SuffixOfSuffix(AfterExponent(b), a, u);
      SuffixOfSuffix(AfterExponent(b), u, t);
    }
  }

  lemma {:induction false} DigitsAreSuffix(t: Text)
    ensures IsSuffix(DropDigits(t), t)
  {
    if t != [] && IsDigit(t[0]) {
      DigitsAreSuffix(t[1..]);
      SuffixOfSuffix(DropDigits(t[1..]), t[1..], t);
    }
  }

  lemma WholeIsSuffix(t: Text)
    ensures AfterWhole(t).Some? ==> IsSuffix(AfterWhole(t).value, t)
  {
    if t != [] {
      DigitsAreSuffix(t[1..]);
      SuffixOfSuffix(DropDigits(t[1..]), t[1..], t);
    }
  }

  lemma FractionIsSuffix(t: Text)
    ensures IsSuffix(AfterFraction(t), t)
  {
    if t != [] {
      DigitsAreSuffix(t[1..]);
      SuffixOfSuffix(DropDigits(t[1..]), t[1..], t);
    }
  }

  lemma ExponentIsSuffix(t: Text)
    ensures IsSuffix(AfterExponent(t), t)
  {
    if Starts(t, LOWER_E) || Starts(t, UPPER_E) {
      var signed := t[1..];
      var digits := if Starts(signed, PLUS) || Starts(signed, MINUS) then signed[1..] else signed;
      DigitsAreSuffix(digits);
      SuffixOfSuffix(DropDigits(digits), digits, signed);
      SuffixOfSuffix(DropDigits(digits), signed, t);
    }
  }

  /** Accepts a whole text: one value, white space, and then its end. */
  method AssertNoDuplicateJsonKeys(text: Text) returns (accepted: bool)
    ensures accepted <==> Accepts(text)
  {
    var reader := new Reader(text);
    assert reader.Remaining() == text;
    var ok := reader.ReadValue();
    if !ok {
      return false;
    }
    reader.SkipWhitespace();
    assert reader.Remaining() == [] <==> reader.position == |text|;
    return reader.position == |text|;
  }
}
