/** The grammar of RFC 8259 as trees that keep every choice of the writer, the text of a tree and what
    it means; and that scan-then-parse reads back every text of the grammar. */
module JsonGrammar {
  import opened Wrappers
  import opened JsonText
  import opened JsonScanner
  import opened JsonAgreement

  // ---- strings (section 7) -----------------------------------------------------------------

  /** One character of a string as written: itself, a two-character escape, or four hex digits. */
  datatype Char = Plain(unit: Unit) | Escape(letter: Unit) | Hex(digits: Text)

  predicate GoodChar(c: Char) {
    match c
    case Plain(unit) => Unescaped(unit)
    case Escape(letter) => EscapeValue(letter).Some?
    case Hex(digits) => |digits| == 4 && FourHex(digits).Some?
  }

  function CharText(c: Char): Text {
    match c
    case Plain(unit) => [unit]
    case Escape(letter) => [BACKSLASH, letter]
    case Hex(digits) => [BACKSLASH, 117] + digits
  }

  function CharValue(c: Char): Unit
    requires GoodChar(c)
  {
    match c
    case Plain(unit) => unit
    case Escape(letter) => EscapeValue(letter).value
    case Hex(digits) => FourHex(digits).value
  }

  predicate GoodChars(chars: seq<Char>) {
    forall c :: c in chars ==> GoodChar(c)
  }

  /** The characters and the closing quote. */
  function BodyText(chars: seq<Char>): Text {
    if chars == [] then [QUOTE] else CharText(chars[0]) + BodyText(chars[1..])
  }

  function StringValue(chars: seq<Char>): Text
    requires GoodChars(chars)
  {
    if chars == [] then [] else [CharValue(chars[0])] + StringValue(chars[1..])
  }

  lemma Joined(a: Text, b: Text, c: Text)
    ensures (a + b) + c == a + (b + c)
  {
  }

  lemma CharDecodes(c: Char, tail: Text)
    requires GoodChar(c)
    ensures DecodeBody(CharText(c) + tail) == Prepend(CharValue(c), DecodeBody(tail))
  {
    var s := CharText(c) + tail;
    match c
    case Plain(_) => assert s[1..] == tail;
    case Escape(_) => assert s[2..] == tail;
    case Hex(digits) => assert s[2..6] == digits && s[6..] == tail;
  }

  lemma {:induction false} BodyDecodes(chars: seq<Char>, post: Text)
    requires GoodChars(chars)
    ensures DecodeBody(BodyText(chars) + post) == Some((StringValue(chars), post))
    decreases |chars|
  {
    if chars != [] {
      BodyDecodes(chars[1..], post);
      CharDecodes(chars[0], BodyText(chars[1..]) + post);
      Joined(CharText(chars[0]), BodyText(chars[1..]), post);
    } else {
      assert ([QUOTE] + post)[1..] == post;
    }
  }

  // ---- numbers (section 6) -----------------------------------------------------------------

  /** The parts of a number as written; the fraction and the exponent may be empty. */
  datatype Numeral = Numeral(negative: bool, integer: Text, fraction: Text, exponent: Text)

  predicate Digits(s: Text) {
    s != [] && forall u :: u in s ==> Digit(u)
  }

  predicate GoodNumeral(n: Numeral) {
    && Digits(n.integer) && (n.integer[0] == 48 ==> |n.integer| == 1)
    && (n.fraction == [] || (n.fraction[0] == POINT && Digits(n.fraction[1..])))
    && (n.exponent == [] || ((n.exponent[0] == 101 || n.exponent[0] == 69)
          && (Digits(n.exponent[1..]) || (|n.exponent| > 1 && Sign(n.exponent[1]) && Digits(n.exponent[2..])))))
  }

  function SignText(negative: bool): Text {
    if negative then [MINUS] else []
  }

  function NumeralText(n: Numeral): Text {
    SignText(n.negative) + UnsignedText(n)
  }

  /** What may follow a value: nothing, a space, a comma or a closing bracket or brace. */
  predicate Ends(post: Text) {
    post == [] || JsonSpace(post[0]) || post[0] == COMMA || post[0] == CLOSE_BRACKET || post[0] == CLOSE_BRACE
  }

  lemma {:induction false} CountsDigits(digits: Text, post: Text)
    requires (forall u :: u in digits ==> Digit(u)) && (post == [] || !Digit(post[0]))
    ensures DigitCount(digits + post) == |digits|
    decreases |digits|
  {
    if digits == [] {
      assert digits + post == post;
    } else {
      CountsDigits(digits[1..], post);
      assert (digits + post)[1..] == digits[1..] + post;
    }
  }

  lemma Dropped(a: Text, b: Text, k: nat)
    requires k < |a|
    ensures (a + b)[k..] == a[k..] + b && (a + b)[k] == a[k] && a[k..] != [] && a[k..][0] == a[k]
  {
  }

  lemma ExponentCounted(exponent: Text, post: Text)
    requires GoodNumeral(Numeral(false, [48], [], exponent)) && Ends(post)
    ensures ExponentLength(exponent + post) == |exponent|
  {
    var s := exponent + post;
    if exponent == [] {
      assert s == post;
    } else if Digits(exponent[1..]) {
      CountsDigits(exponent[1..], post);
      Dropped(exponent, post, 1);
    } else {
      CountsDigits(exponent[2..], post);
      Dropped(exponent, post, 1);
      Dropped(exponent, post, 2);
    }
  }

  lemma FractionCounted(fraction: Text, post: Text)
    requires GoodNumeral(Numeral(false, [48], fraction, [])) && (post == [] || (post[0] != POINT && !Digit(post[0])))
    ensures FractionLength(fraction + post) == |fraction|
  {
    var s := fraction + post;
    if fraction == [] {
      assert s == post;
    } else {
      CountsDigits(fraction[1..], post);
      Dropped(fraction, post, 1);
    }
  }

  lemma IntegerCounted(integer: Text, post: Text)
    requires Digits(integer) && (integer[0] == 48 ==> |integer| == 1) && (post == [] || !Digit(post[0]))
    ensures IntegerLength(integer + post) == |integer|
  {
    CountsDigits(integer, post);
    assert (integer + post)[0] == integer[0] && integer[0] in integer;
  }

  function UnsignedText(n: Numeral): Text {
    n.integer + n.fraction + n.exponent
  }

  lemma PartsCounted(a: Text, b: Text, c: Text)
    requires IntegerLength(a + (b + c)) == |a| > 0 && FractionLength(b + c) == |b|
    ensures UnsignedLength(a + (b + c)) == |a| + |b| + ExponentLength(c)
  {
    var s := a + (b + c);
    assert s[|a|..] == b + c;
    assert (b + c)[|b|..] == c;
  }

  /** A part that is there starts as it does alone. */
  lemma FirstOf(part: Text, post: Text)
    ensures if part == [] then part + post == post else part + post != [] && (part + post)[0] == part[0]
  {
  }

  lemma UnsignedCounted(n: Numeral, post: Text)
    requires GoodNumeral(n) && Ends(post)
    ensures UnsignedLength(UnsignedText(n) + post) == |UnsignedText(n)| > 0
  {
    var afterFraction := n.exponent + post;
    var afterInteger := n.fraction + afterFraction;
    FirstOf(n.exponent, post);
    FirstOf(n.fraction, afterFraction);
    IntegerCounted(n.integer, afterInteger);
    FractionCounted(n.fraction, afterFraction);
    ExponentCounted(n.exponent, post);
    PartsCounted(n.integer, n.fraction, afterFraction);
    Joined(n.integer + n.fraction, n.exponent, post);
    Joined(n.integer, n.fraction, afterFraction);
  }

  lemma NumeralCounted(n: Numeral, post: Text)
    requires GoodNumeral(n) && Ends(post)
    ensures NumberLength(NumeralText(n) + post) == |NumeralText(n)| > 0
  {
    var unsigned := UnsignedText(n) + post;
    UnsignedCounted(n, post);
    Joined(SignText(n.negative), UnsignedText(n), post);
    if n.negative {
      assert ([MINUS] + unsigned)[1..] == unsigned;
    } else {
      assert [] + unsigned == unsigned;
      Joined(n.integer, n.fraction, n.exponent);
      Joined(n.integer, n.fraction + n.exponent, post);
      FirstOf(n.integer, n.fraction + n.exponent + post);
      assert n.integer[0] in n.integer;
    }
  }

  // ---- values (sections 3 to 5) ------------------------------------------------------------

  datatype Node =
    | NullNode | BoolNode(b: bool) | NumberNode(n: Numeral) | StringNode(chars: seq<Char>)
    | EmptyArray(space: Text) | ArrayNode(elements: Elements)
    | EmptyObject(space: Text) | ObjectNode(members: MemberNodes)

  /** The elements of an array with the spaces around them. */
  datatype Elements =
    | LastElement(before: Text, value: Node, after: Text)
    | NextElement(before: Text, value: Node, after: Text, next: Elements)

  datatype MemberNodes =
    | LastMember(before: Text, key: seq<Char>, beforeColon: Text, beforeValue: Text, value: Node, after: Text)
    | NextMember(before: Text, key: seq<Char>, beforeColon: Text, beforeValue: Text, value: Node, after: Text,
                 next: MemberNodes)

  predicate Good(v: Node) {
    match v
    case NumberNode(n) => GoodNumeral(n)
    case StringNode(chars) => GoodChars(chars)
    case EmptyArray(space) => AllSpace(space)
    case ArrayNode(elements) => GoodElements(elements)
    case EmptyObject(space) => AllSpace(space)
    case ObjectNode(members) => GoodMembers(members)
    case _ => true
  }

  predicate GoodElements(e: Elements) {
    AllSpace(e.before) && Good(e.value) && AllSpace(e.after) && (e.LastElement? || GoodElements(e.next))
  }

  predicate GoodMembers(m: MemberNodes) {
    && AllSpace(m.before) && GoodChars(m.key) && AllSpace(m.beforeColon) && AllSpace(m.beforeValue)
    && Good(m.value) && AllSpace(m.after) && (m.LastMember? || GoodMembers(m.next))
  }

  function NodeText(v: Node): Text {
    match v
    case NullNode => NULL_WORD
    case BoolNode(b) => if b then TRUE_WORD else FALSE_WORD
    case NumberNode(n) => NumeralText(n)
    case StringNode(chars) => [QUOTE] + BodyText(chars)
    case EmptyArray(space) => [OPEN_BRACKET] + space + [CLOSE_BRACKET]
    case ArrayNode(elements) => [OPEN_BRACKET] + ElementsText(elements)
    case EmptyObject(space) => [OPEN_BRACE] + space + [CLOSE_BRACE]
    case ObjectNode(members) => [OPEN_BRACE] + MembersText(members)
  }

  /** Through the closing bracket. */
  function ElementsText(e: Elements): Text {
    e.before + NodeText(e.value) + e.after
    + (if e.LastElement? then [CLOSE_BRACKET] else [COMMA] + ElementsText(e.next))
  }

  /** Through the closing brace. */
  function MembersText(m: MemberNodes): Text {
    m.before + [QUOTE] + BodyText(m.key) + m.beforeColon + [COLON] + m.beforeValue + NodeText(m.value) + m.after
    + (if m.LastMember? then [CLOSE_BRACE] else [COMMA] + MembersText(m.next))
  }

  function Meaning(v: Node): Json
    requires Good(v)
  {
    match v
    case NullNode => Null
    case BoolNode(b) => Bool(b)
    case NumberNode(n) => Number(NumeralText(n))
    case StringNode(chars) => String(StringValue(chars))
    case EmptyArray(_) => Array(NoItems)
    case ArrayNode(elements) => Array(ItemsMeaning(elements))
    case EmptyObject(_) => Object(NoMembers)
    case ObjectNode(members) => Object(MembersMeaning(members))
  }

  function ItemsMeaning(e: Elements): Items
    requires GoodElements(e)
  {
    Item(Meaning(e.value), if e.LastElement? then NoItems else ItemsMeaning(e.next))
  }

  function MembersMeaning(m: MemberNodes): Members
    requires GoodMembers(m)
  {
    Member(StringValue(m.key), Meaning(m.value), if m.LastMember? then NoMembers else MembersMeaning(m.next))
  }

  // ---- every text of the grammar parses to its meaning -------------------------------------

  lemma {:induction false} SpaceSkipped(space: Text, s: Text)
    requires AllSpace(space) && (s == [] || !JsonSpace(s[0]))
    ensures SkipJsonSpace(space + s) == s
    decreases |space|
  {
    if space == [] {
      assert space + s == s;
    } else {
      SpaceSkipped(space[1..], s);
      assert (space + s)[1..] == space[1..] + s;
    }
  }

  /** Which value a text starts is clear from its first unit. */
  lemma NodeStarts(v: Node, post: Text)
    requires Good(v)
    ensures var s := NodeText(v) + post; s != [] && !JsonSpace(s[0]) && s[0] != CLOSE_BRACKET && s[0] != CLOSE_BRACE
  {
    if v.NumberNode? {
      assert v.n.integer[0] in v.n.integer;
      assert NodeText(v)[0] == MINUS || NodeText(v)[0] == v.n.integer[0];
    }
    assert (NodeText(v) + post)[0] == NodeText(v)[0];
  }

  lemma Cut(a: Text, b: Text)
    ensures (a + b)[..|a|] == a && (a + b)[|a|..] == b && a <= a + b
  {
  }

  lemma NumberParses(n: Numeral, post: Text)
    requires GoodNumeral(n) && Ends(post)
    ensures ParseScalar(NumeralText(n) + post) == Some((Number(NumeralText(n)), post))
  {
    var s := NumeralText(n) + post;
    NumeralCounted(n, post);
    Cut(NumeralText(n), post);
    NumberStart(s);
  }

  lemma NumberStart(s: Text)
    requires NumberLength(s) > 0
    ensures s != [] && (s[0] == MINUS || Digit(s[0]))
    ensures !StartsWith(s, NULL_WORD) && !StartsWith(s, TRUE_WORD) && !StartsWith(s, FALSE_WORD)
  {
  }

  lemma WordsParse(post: Text)
    ensures ParseScalar(NULL_WORD + post) == Some((Null, post))
    ensures ParseScalar(TRUE_WORD + post) == Some((Bool(true), post))
    ensures ParseScalar(FALSE_WORD + post) == Some((Bool(false), post))
  {
    Cut(NULL_WORD, post);
    Cut(TRUE_WORD, post);
    Cut(FALSE_WORD, post);
    assert (TRUE_WORD + post)[0] == 116 && (FALSE_WORD + post)[0] == 102;
  }

  lemma ScalarParses(v: Node, post: Text)
    requires Good(v) && Ends(post) && (v.NullNode? || v.BoolNode? || v.NumberNode?)
    ensures ParseScalar(NodeText(v) + post) == Some((Meaning(v), post))
  {
    WordsParse(post);
    if v.NumberNode? {
      NumberParses(v.n, post);
    }
  }

  lemma SpacesBefore(space: Text, s: Text)
    requires AllSpace(space) && s != [] && !JsonSpace(s[0])
    ensures ParseValue(space + s) == ParseValue(s)
  {
    SpaceSkipped(space, s);
    assert SkipJsonSpace(s) == s;
  }

  lemma StringParses(chars: seq<Char>, post: Text)
    requires GoodChars(chars)
    ensures ParseValue([QUOTE] + BodyText(chars) + post) == Some((String(StringValue(chars)), post))
  {
    var s := [QUOTE] + BodyText(chars) + post;
    BodyDecodes(chars, post);
    assert s[1..] == BodyText(chars) + post;
  }

  lemma EmptyParses(gap: Text, post: Text)
    requires AllSpace(gap)
    ensures ParseValue([OPEN_BRACKET] + gap + [CLOSE_BRACKET] + post) == Some((Array(NoItems), post))
    ensures ParseValue([OPEN_BRACE] + gap + [CLOSE_BRACE] + post) == Some((Object(NoMembers), post))
  {
    var s, t := [OPEN_BRACKET] + gap + [CLOSE_BRACKET] + post, [OPEN_BRACE] + gap + [CLOSE_BRACE] + post;
    assert s[1..] == gap + ([CLOSE_BRACKET] + post) && t[1..] == gap + ([CLOSE_BRACE] + post);
    SpaceSkipped(gap, [CLOSE_BRACKET] + post);
    SpaceSkipped(gap, [CLOSE_BRACE] + post);
    assert ([CLOSE_BRACKET] + post)[1..] == post && ([CLOSE_BRACE] + post)[1..] == post;
  }

  lemma {:induction false} NodeParses(space: Text, v: Node, post: Text)
    requires AllSpace(space) && Good(v) && Ends(post)
    ensures ParseValue(space + (NodeText(v) + post)) == Some((Meaning(v), post))
    decreases v, 0
  {
    NodeStarts(v, post);
    SpacesBefore(space, NodeText(v) + post);
    match v
    case StringNode(chars) => StringParses(chars, post);
    case EmptyArray(gap) => EmptyParses(gap, post);
    case EmptyObject(gap) => EmptyParses(gap, post);
    case ArrayNode(elements) =>
      ElementsParse(elements, post);
      BracketParses(ElementsText(elements) + post);
      Joined([OPEN_BRACKET], ElementsText(elements), post);
    case ObjectNode(members) =>
      MembersParse(members, post);
      BraceParses(MembersText(members) + post);
      Joined([OPEN_BRACE], MembersText(members), post);
    case _ =>
      ScalarParses(v, post);
      ScalarIsValue(NodeText(v) + post);
  }

  lemma BracketParses(t: Text)
    requires ParseItems(t).Some? && SkipJsonSpace(t) != [] && SkipJsonSpace(t)[0] != CLOSE_BRACKET
    ensures ParseValue([OPEN_BRACKET] + t) == Some((Array(ParseItems(t).value.0), ParseItems(t).value.1))
  {
    assert ([OPEN_BRACKET] + t)[1..] == t;
  }

  lemma BraceParses(t: Text)
    requires ParseMembers(t).Some? && SkipJsonSpace(t) != [] && SkipJsonSpace(t)[0] != CLOSE_BRACE
    ensures ParseValue([OPEN_BRACE] + t) == Some((Object(ParseMembers(t).value.0), ParseMembers(t).value.1))
  {
    assert ([OPEN_BRACE] + t)[1..] == t;
  }

  lemma ScalarIsValue(s: Text)
    requires ParseScalar(s).Some?
    ensures ParseValue(s) == ParseScalar(s)
  {
    ScalarAgrees(s);
    ScalarStart(s);
    assert SkipJsonSpace(s) == s;
  }

  lemma ScalarStart(s: Text)
    requires ParseScalar(s).Some?
    ensures s != [] && s[0] != OPEN_BRACE && s[0] != OPEN_BRACKET && s[0] != QUOTE
  {
    if NumberLength(s) > 0 {
      NumberStart(s);
    }
  }

  lemma {:induction false} ElementsParse(e: Elements, post: Text)
    requires GoodElements(e)
    ensures ParseItems(ElementsText(e) + post) == Some((ItemsMeaning(e), post))
    ensures var t := SkipJsonSpace(ElementsText(e) + post); t != [] && t[0] != CLOSE_BRACKET
    decreases e, 1
  {
    var end := if e.LastElement? then [CLOSE_BRACKET] + post else [COMMA] + (ElementsText(e.next) + post);
    assert ElementsText(e) + post == e.before + (NodeText(e.value) + (e.after + end));
    assert Ends(e.after + end) by {
      assert e.after != [] ==> (e.after + end)[0] == e.after[0];
    }
    NodeParses(e.before, e.value, e.after + end);
    NodeStarts(e.value, e.after + end);
    SpaceSkipped(e.before, NodeText(e.value) + (e.after + end));
    SpaceSkipped(e.after, end);
    if e.NextElement? {
      ElementsParse(e.next, post);
      assert end[1..] == ElementsText(e.next) + post;
    } else {
      assert end[1..] == post;
    }
  }

  /** One member, through the spaces after its value. */
  lemma MemberParses(m: MemberNodes, end: Text)
    requires GoodMembers(m) && Ends(m.after + end) && end != [] && !JsonSpace(end[0])
    requires ParseValue(m.beforeValue + (NodeText(m.value) + (m.after + end)))
      == Some((Meaning(m.value), m.after + end))
    ensures var s := m.before
      + ([QUOTE]
         + (BodyText(m.key) + (m.beforeColon + ([COLON] + (m.beforeValue + (NodeText(m.value) + (m.after + end)))))));
      var token := SkipJsonSpace(s);
      && token != [] && token[0] == QUOTE && ParseString(token).Some?
         && ParseString(token).value.0 == StringValue(m.key)
      && var colon := SkipJsonSpace(ParseString(token).value.1);
         colon != [] && colon[0] == COLON && ParseValue(colon[1..]) == Some((Meaning(m.value), m.after + end))
    ensures SkipJsonSpace(m.after + end) == end
  {
    var afterColon := m.beforeValue + (NodeText(m.value) + (m.after + end));
    var afterKey := m.beforeColon + ([COLON] + afterColon);
    SpaceSkipped(m.before, [QUOTE] + (BodyText(m.key) + afterKey));
    BodyDecodes(m.key, afterKey);
    assert ([QUOTE] + (BodyText(m.key) + afterKey))[1..] == BodyText(m.key) + afterKey;
    SpaceSkipped(m.beforeColon, [COLON] + afterColon);
    assert ([COLON] + afterColon)[1..] == afterColon;
    SpaceSkipped(m.after, end);
  }

  lemma {:induction false} MembersParse(m: MemberNodes, post: Text)
    requires GoodMembers(m)
    ensures ParseMembers(MembersText(m) + post) == Some((MembersMeaning(m), post))
    ensures var t := SkipJsonSpace(MembersText(m) + post); t != [] && t[0] != CLOSE_BRACE
    decreases m, 1
  {
    var end := if m.LastMember? then [CLOSE_BRACE] + post else [COMMA] + (MembersText(m.next) + post);
    MemberShape(m, end, post);
    FirstOf(m.after, end);
    assert m.after != [] ==> m.after[0] in m.after;
    NodeParses(m.beforeValue, m.value, m.after + end);
    MemberParses(m, end);
    if m.NextMember? {
      MembersParse(m.next, post);
      assert end[1..] == MembersText(m.next) + post;
    } else {
      assert end[1..] == post;
    }
  }

  lemma MemberShape(m: MemberNodes, end: Text, post: Text)
    requires end == if m.LastMember? then [CLOSE_BRACE] + post else [COMMA] + (MembersText(m.next) + post)
    ensures MembersText(m) + post
         == m.before
           + ([QUOTE]
              + (BodyText(m.key)
                 + (m.beforeColon + ([COLON] + (m.beforeValue + (NodeText(m.value) + (m.after + end)))))))
  {
    var tail := if m.LastMember? then [CLOSE_BRACE] else [COMMA] + MembersText(m.next);
    assert tail + post == end;
    var a := m.before + [QUOTE];
    var b := a + BodyText(m.key);
    var c := b + m.beforeColon;
    var d := c + [COLON];
    var e := d + m.beforeValue;
    var f := e + NodeText(m.value);
    Joined(f + m.after, tail, post);
    Joined(f, m.after, end);
    Joined(e, NodeText(m.value), m.after + end);
    Joined(d, m.beforeValue, NodeText(m.value) + (m.after + end));
    Joined(c, [COLON], m.beforeValue + (NodeText(m.value) + (m.after + end)));
    Joined(b, m.beforeColon, [COLON] + (m.beforeValue + (NodeText(m.value) + (m.after + end))));
    Joined(a, BodyText(m.key), m.beforeColon + ([COLON] + (m.beforeValue + (NodeText(m.value) + (m.after + end)))));
    Joined(m.before, [QUOTE],
           BodyText(m.key) + (m.beforeColon + ([COLON] + (m.beforeValue + (NodeText(m.value) + (m.after + end))))));
  }

  /** A JSON text of the grammar: a value with spaces around it. */
  function DocumentText(before: Text, v: Node, after: Text): Text {
    before + (NodeText(v) + after)
  }

  /** Scan-then-parse reads every text of the grammar as what it means, unless an object in it repeats
      a name, and then refuses it. */
  lemma DocumentsAreRead(before: Text, v: Node, after: Text)
    requires AllSpace(before) && Good(v) && AllSpace(after)
    ensures var text := DocumentText(before, v, after);
      && Parse(text) == Some(Meaning(v))
      && (Scan(text) <==> DistinctNames(Meaning(v)))
  {
    NodeParses(before, v, after);
    assert after + [] == after;
    SpaceSkipped(after, []);
    ScanIffDistinct(DocumentText(before, v, after));
  }
}
