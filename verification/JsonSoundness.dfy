/** The other half of the grammar: every text that parses is a text of RFC 8259, with the value that the
    grammar gives it. */
module JsonSoundness {
  import opened Wrappers
  import opened JsonText
  import opened JsonScanner
  import opened JsonGrammar
  import opened JsonRoundTrip

  lemma {:induction false} SpaceRead(s: Text) returns (space: Text)
    ensures AllSpace(space) && s == space + SkipJsonSpace(s)
    decreases |s|
  {
    if s == [] || !JsonSpace(s[0]) {
      return [];
    }
    var rest := SpaceRead(s[1..]);
    assert s == [s[0]] + s[1..];
    return [s[0]] + rest;
  }

  // ---- strings -----------------------------------------------------------------------------

  /** The first character of a decoded string, as it is written. */
  function FirstChar(s: Text): Char
    requires DecodeBody(s).Some? && s[0] != QUOTE
  {
    if s[0] != BACKSLASH then Plain(s[0]) else if s[1] == 117 then Hex(s[2..6]) else Escape(s[1])
  }

  lemma FirstCharRead(s: Text)
    requires DecodeBody(s).Some? && s[0] != QUOTE
    ensures var c := FirstChar(s); var tail := s[|CharText(c)|..];
      && GoodChar(c) && |CharText(c)| <= |s| && s == CharText(c) + tail
      && DecodeBody(tail).Some? && DecodeBody(s) == Prepend(CharValue(c), DecodeBody(tail))
  {
    var c := FirstChar(s);
    if s[0] == BACKSLASH && s[1] == 117 {
      assert s[..6] == [BACKSLASH, 117] + s[2..6];
    }
    assert CharText(c) == s[..|CharText(c)|];
  }

  lemma {:induction false} BodyRead(s: Text) returns (chars: seq<Char>)
    requires DecodeBody(s).Some?
    ensures GoodChars(chars) && StringValue(chars) == DecodeBody(s).value.0
    ensures s == BodyText(chars) + DecodeBody(s).value.1
    decreases |s|
  {
    if s[0] == QUOTE {
      assert s == [QUOTE] + s[1..];
      return [];
    }
    var c := FirstChar(s);
    FirstCharRead(s);
    var tail := s[|CharText(c)|..];
    var rest := BodyRead(tail);
    chars := [c] + rest;
    assert chars[1..] == rest;
    Joined(CharText(c), BodyText(rest), DecodeBody(tail).value.1);
  }

  // ---- numbers -----------------------------------------------------------------------------

  lemma ExponentRead(s: Text)
    ensures var exponent := s[..ExponentLength(s)];
      exponent == [] || ((exponent[0] == 101 || exponent[0] == 69)
                         && (Digits(exponent[1..]) || (|exponent| > 1 && Sign(exponent[1]) && Digits(exponent[2..]))))
  {
    var n := ExponentLength(s);
    if n > 0 && |s| >= 3 && Sign(s[1]) && Digit(s[2]) {
      DigitsCounted(s[2..], n - 2);
      assert s[..n][2..] == s[2..][..n - 2];
    } else if n > 0 {
      DigitsCounted(s[1..], n - 1);
      assert s[..n][1..] == s[1..][..n - 1];
    }
  }

  lemma ThreeParts(s: Text, i: nat, f: nat, e: nat)
    requires i + f + e <= |s|
    ensures s[..i] + s[i..][..f] + s[i..][f..][..e] == s[..i + f + e]
  {
    assert s[i..][f..] == s[i + f..];
  }

  lemma UnsignedRead(negative: bool, s: Text) returns (n: Numeral)
    requires UnsignedLength(s) > 0
    ensures GoodNumeral(n) && n.negative == negative && UnsignedText(n) == s[..UnsignedLength(s)]
  {
    var i := IntegerLength(s);
    var after := s[i..];
    var f := FractionLength(after);
    var e := ExponentLength(after[f..]);
    GoodInteger(s);
    GoodFraction(after);
    ExponentRead(after[f..]);
    n := Numeral(negative, s[..i], after[..f], after[f..][..e]);
    ThreeParts(s, i, f, e);
  }

  lemma NumberRead(s: Text) returns (n: Numeral)
    requires NumberLength(s) > 0
    ensures GoodNumeral(n) && NumeralText(n) == s[..NumberLength(s)]
  {
    if s[0] == MINUS {
      n := UnsignedRead(true, s[1..]);
      assert [MINUS] + s[1..][..UnsignedLength(s[1..])] == s[..NumberLength(s)];
    } else {
      n := UnsignedRead(false, s);
      assert [] + s[..NumberLength(s)] == s[..NumberLength(s)];
    }
  }

  // ---- values ------------------------------------------------------------------------------

  /** The text is this value, with spaces before it, followed by the rest. */
  ghost predicate ReadAs(text: Text, before: Text, v: Node, value: Json, rest: Text) {
    AllSpace(before) && Good(v) && Meaning(v) == value && text == before + (NodeText(v) + rest)
  }

  lemma ScalarRead(s: Text) returns (v: Node)
    requires ParseScalar(s).Some?
    ensures Good(v) && Meaning(v) == ParseScalar(s).value.0 && s == NodeText(v) + ParseScalar(s).value.1
  {
    if StartsWith(s, NULL_WORD) {
      return NullNode;
    }
    if StartsWith(s, TRUE_WORD) {
      return BoolNode(true);
    }
    if StartsWith(s, FALSE_WORD) {
      return BoolNode(false);
    }
    var n := NumberRead(s);
    return NumberNode(n);
  }

  lemma EmptyJoins(open: Unit, s: Text, space: Text, t: Text)
    requires s != [] && s[0] == open && s[1..] == space + t && t != []
    ensures s == [open] + space + [t[0]] + t[1..]
  {
    assert s == [open] + s[1..];
    assert t == [t[0]] + t[1..];
  }

  lemma EmptyRead(open: Unit, s: Text, close: Unit) returns (space: Text)
    requires s != [] && s[0] == open && SkipJsonSpace(s[1..]) != [] && SkipJsonSpace(s[1..])[0] == close
    ensures AllSpace(space) && s == [open] + space + [close] + SkipJsonSpace(s[1..])[1..]
  {
    space := SpaceRead(s[1..]);
    var t := SkipJsonSpace(s[1..]);
    EmptyJoins(open, s, space, t);
    assert t[0] == close;
  }

  /** What a value starts with, when the spaces before it are gone. */
  lemma ObjectRead(s: Text) returns (v: Node)
    requires ParseValue(s).Some? && SkipJsonSpace(s) == s && s[0] == OPEN_BRACE
    ensures Good(v) && Meaning(v) == ParseValue(s).value.0 && s == NodeText(v) + ParseValue(s).value.1
    decreases |s|, 0
  {
    var t := SkipJsonSpace(s[1..]);
    if t != [] && t[0] == CLOSE_BRACE {
      var space := EmptyRead(OPEN_BRACE, s, CLOSE_BRACE);
      return EmptyObject(space);
    }
    var members := MembersRead(s[1..]);
    Joined([OPEN_BRACE], MembersText(members), ParseValue(s).value.1);
    assert s == [OPEN_BRACE] + s[1..];
    return ObjectNode(members);
  }

  lemma ArrayRead(s: Text) returns (v: Node)
    requires ParseValue(s).Some? && SkipJsonSpace(s) == s && s[0] == OPEN_BRACKET
    ensures Good(v) && Meaning(v) == ParseValue(s).value.0 && s == NodeText(v) + ParseValue(s).value.1
    decreases |s|, 0
  {
    var t := SkipJsonSpace(s[1..]);
    if t != [] && t[0] == CLOSE_BRACKET {
      var space := EmptyRead(OPEN_BRACKET, s, CLOSE_BRACKET);
      return EmptyArray(space);
    }
    var elements := ItemsRead(s[1..]);
    Joined([OPEN_BRACKET], ElementsText(elements), ParseValue(s).value.1);
    assert s == [OPEN_BRACKET] + s[1..];
    return ArrayNode(elements);
  }

  lemma QuotedRead(s: Text) returns (chars: seq<Char>)
    requires ParseString(s).Some?
    ensures GoodChars(chars) && StringValue(chars) == ParseString(s).value.0
    ensures s == [QUOTE] + (BodyText(chars) + ParseString(s).value.1)
  {
    chars := BodyRead(s[1..]);
    assert s == [QUOTE] + s[1..];
  }

  lemma StringRead(s: Text) returns (v: Node)
    requires ParseString(s).Some?
    ensures Good(v) && Meaning(v) == String(ParseString(s).value.0) && s == NodeText(v) + ParseString(s).value.1
  {
    var chars := QuotedRead(s);
    Joined([QUOTE], BodyText(chars), ParseString(s).value.1);
    return StringNode(chars);
  }

  lemma {:induction false} SkippedTwice(s: Text)
    ensures SkipJsonSpace(SkipJsonSpace(s)) == SkipJsonSpace(s) && ParseValue(SkipJsonSpace(s)) == ParseValue(s)
  {
  }

  lemma {:induction false} ValueRead(text: Text) returns (before: Text, v: Node)
    requires ParseValue(text).Some?
    ensures ReadAs(text, before, v, ParseValue(text).value.0, ParseValue(text).value.1)
    decreases |text|, 1
  {
    before := SpaceRead(text);
    var s := SkipJsonSpace(text);
    SkippedTwice(text);
    if s[0] == OPEN_BRACE {
      v := ObjectRead(s);
    } else if s[0] == OPEN_BRACKET {
      v := ArrayRead(s);
    } else if s[0] == QUOTE {
      v := StringRead(s);
    } else {
      v := ScalarRead(s);
    }
  }

  lemma ElementJoins(before: Text, value: Node, after: Text, tail: Text, rest: Text)
    ensures before + (NodeText(value) + (after + (tail + rest))) == before + NodeText(value) + after + tail + rest
  {
  }

  lemma {:induction false} ItemsRead(text: Text) returns (e: Elements)
    requires ParseItems(text).Some?
    ensures GoodElements(e) && ItemsMeaning(e) == ParseItems(text).value.0
    ensures text == ElementsText(e) + ParseItems(text).value.1
    decreases |text|, 2
  {
    var before, v := ValueRead(text);
    var left := ParseValue(text).value.1;
    var after := SpaceRead(left);
    var s := SkipJsonSpace(left);
    var rest := ParseItems(text).value.1;
    if s[0] == CLOSE_BRACKET {
      e := LastElement(before, v, after);
      assert s == [CLOSE_BRACKET] + rest;
      ElementJoins(before, v, after, [CLOSE_BRACKET], rest);
    } else {
      var next := ItemsRead(s[1..]);
      e := NextElement(before, v, after, next);
      assert s == [COMMA] + s[1..];
      Joined([COMMA], ElementsText(next), rest);
      ElementJoins(before, v, after, [COMMA] + ElementsText(next), rest);
    }
  }

  lemma MemberJoins(before: Text, key: Text, beforeColon: Text, beforeValue: Text, value: Text, after: Text, tail: Text,
                    rest: Text)
    ensures before + ([QUOTE] + (key + (beforeColon + ([COLON] + (beforeValue + (value + (after + (tail + rest))))))))
         == before + [QUOTE] + key + beforeColon + [COLON] + beforeValue + value + after + tail + rest
  {
    Joined(after, tail, rest);
    Joined(value, after + tail, rest);
    Joined(value, after, tail);
    Joined(beforeValue, value + after + tail, rest);
    Joined([COLON], beforeValue, value + after + tail + rest);
  }

  lemma HeadAndTail(s: Text)
    requires s != []
    ensures s == [s[0]] + s[1..]
  {
  }

  /** The name of a member with what stands around it, up to its value. */
  lemma KeyRead(text: Text) returns (before: Text, chars: seq<Char>, beforeColon: Text, afterColon: Text)
    requires ParseMembers(text).Some?
    ensures AllSpace(before) && GoodChars(chars) && AllSpace(beforeColon)
    ensures var key := ParseString(SkipJsonSpace(text)).value;
      && StringValue(chars) == key.0 && SkipJsonSpace(key.1) == [COLON] + afterColon
      && text == before + ([QUOTE] + (BodyText(chars) + (beforeColon + ([COLON] + afterColon))))
  {
    before := SpaceRead(text);
    chars := QuotedRead(SkipJsonSpace(text));
    var left := ParseString(SkipJsonSpace(text)).value.1;
    beforeColon := SpaceRead(left);
    var colon := SkipJsonSpace(left);
    HeadAndTail(colon);
    afterColon := colon[1..];
  }

  lemma {:induction false} MembersRead(text: Text) returns (m: MemberNodes)
    requires ParseMembers(text).Some?
    ensures GoodMembers(m) && MembersMeaning(m) == ParseMembers(text).value.0
    ensures text == MembersText(m) + ParseMembers(text).value.1
    decreases |text|, 2
  {
    var before, chars, beforeColon, afterColon := KeyRead(text);
    assert (([COLON] + afterColon)[1..]) == afterColon;
    var beforeValue, v := ValueRead(afterColon);
    var left := ParseValue(afterColon).value.1;
    var after := SpaceRead(left);
    var s := SkipJsonSpace(left);
    var rest := ParseMembers(text).value.1;
    if s[0] == CLOSE_BRACE {
      m := LastMember(before, chars, beforeColon, beforeValue, v, after);
      assert s == [CLOSE_BRACE] + rest;
      MemberJoins(before, BodyText(chars), beforeColon, beforeValue, NodeText(v), after, [CLOSE_BRACE], rest);
    } else {
      var next := MembersRead(s[1..]);
      m := NextMember(before, chars, beforeColon, beforeValue, v, after, next);
      assert s == [COMMA] + s[1..];
      Joined([COMMA], MembersText(next), rest);
      MemberJoins(before, BodyText(chars), beforeColon, beforeValue, NodeText(v), after, [COMMA] + MembersText(next),
                  rest);
    }
  }

  /** Every text that parses is a text of the grammar, and means the value it parses to. */
  lemma ParsedIsGrammar(text: Text) returns (before: Text, v: Node, after: Text)
    requires Parse(text).Some?
    ensures AllSpace(before) && Good(v) && AllSpace(after)
    ensures text == DocumentText(before, v, after) && Meaning(v) == Parse(text).value
  {
    before, v := ValueRead(text);
    var rest := ParseValue(text).value.1;
    after := SpaceRead(rest);
    assert after + [] == after;
  }

  /** A text of the grammar is exactly one that parses. */
  lemma GrammarIff(text: Text)
    ensures Parse(text).Some?
      <==> exists before, v, after ::
        AllSpace(before) && Good(v) && AllSpace(after) && text == DocumentText(before, v, after)
  {
    if Parse(text).Some? {
      var before, v, after := ParsedIsGrammar(text);
    }
    forall before, v, after | AllSpace(before) && Good(v) && AllSpace(after) && text == DocumentText(before, v, after)
      ensures Parse(text).Some?
    {
      DocumentsAreRead(before, v, after);
    }
  }
}
