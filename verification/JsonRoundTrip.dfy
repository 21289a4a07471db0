/** A printer for JSON values, and that scan-then-parse undoes it on every value without repeated
    names. */
module JsonRoundTrip {
  import opened Wrappers
  import opened JsonText
  import opened JsonScanner
  import opened JsonGrammar

  /** Every number in the value is written as a number. */
  predicate Printable(v: Json) {
    match v
    case Number(token) => NumberLength(token) == |token| > 0
    case Array(items) => PrintableItems(items)
    case Object(members) => PrintableMembers(members)
    case _ => true
  }

  predicate PrintableItems(items: Items) {
    items.NoItems? || (Printable(items.head) && PrintableItems(items.tail))
  }

  predicate PrintableMembers(members: Members) {
    members.NoMembers? || (Printable(members.value) && PrintableMembers(members.rest))
  }

  // ---- the canonical tree of a value -------------------------------------------------------

  function HexDigit(n: nat): Unit
    requires n < 16
  {
    if n < 10 then 48 + n else 87 + n
  }

  /** Quotes, backslashes and control characters are escaped, everything else is written as it is. */
  function CanonicalChar(u: Unit): Char {
    if u == QUOTE || u == BACKSLASH then Escape(u)
    else if u < 32 then Hex([48, 48, HexDigit(u / 16), HexDigit(u % 16)])
    else Plain(u)
  }

  function CanonicalChars(s: Text): seq<Char> {
    if s == [] then [] else [CanonicalChar(s[0])] + CanonicalChars(s[1..])
  }

  function NumeralOf(token: Text): Numeral {
    if token != [] && token[0] == MINUS then UnsignedNumeral(true, token[1..]) else UnsignedNumeral(false, token)
  }

  function UnsignedNumeral(negative: bool, unsigned: Text): Numeral {
    var after := unsigned[IntegerLength(unsigned)..];
    Numeral(negative, unsigned[..IntegerLength(unsigned)], after[..FractionLength(after)],
            after[FractionLength(after)..])
  }

  function Canonical(v: Json): Node {
    match v
    case Null => NullNode
    case Bool(b) => BoolNode(b)
    case Number(token) => NumberNode(NumeralOf(token))
    case String(s) => StringNode(CanonicalChars(s))
    case Array(items) => if items.NoItems? then EmptyArray([]) else ArrayNode(CanonicalItems(items))
    case Object(members) => if members.NoMembers? then EmptyObject([]) else ObjectNode(CanonicalMembers(members))
  }

  function CanonicalItems(items: Items): Elements
    requires items.Item?
  {
    if items.tail.NoItems? then LastElement([], Canonical(items.head), [])
    else NextElement([], Canonical(items.head), [], CanonicalItems(items.tail))
  }

  function CanonicalMembers(members: Members): MemberNodes
    requires members.Member?
  {
    if members.rest.NoMembers? then LastMember([], CanonicalChars(members.key), [], [], Canonical(members.value), [])
    else NextMember([], CanonicalChars(members.key), [], [], Canonical(members.value), [],
                    CanonicalMembers(members.rest))
  }

  function Print(v: Json): Text {
    NodeText(Canonical(v))
  }

  // ---- the canonical tree means the value --------------------------------------------------

  lemma ControlHex(u: Unit)
    requires u < 32
    ensures FourHex([48, 48, HexDigit(u / 16), HexDigit(u % 16)]) == Some(u)
  {
    var digits: Text := [48, 48, HexDigit(u / 16), HexDigit(u % 16)];
    assert HexValue(digits[0]) == Some(0) && HexValue(digits[1]) == Some(0);
    assert HexValue(digits[2]) == Some(u / 16) && HexValue(digits[3]) == Some(u % 16);
  }

  lemma {:induction false} CharsMean(s: Text)
    ensures GoodChars(CanonicalChars(s)) && StringValue(CanonicalChars(s)) == s
    decreases |s|
  {
    if s != [] {
      CharsMean(s[1..]);
      var c := CanonicalChar(s[0]);
      if s[0] < 32 {
        ControlHex(s[0]);
      }
      assert GoodChar(c) && CharValue(c) == s[0];
      assert CanonicalChars(s)[1..] == CanonicalChars(s[1..]);
    }
  }

  lemma DigitsCounted(s: Text, n: nat)
    requires 0 < n <= DigitCount(s)
    ensures Digits(s[..n])
  {
  }

  lemma GoodFraction(s: Text)
    ensures var fraction := s[..FractionLength(s)]; fraction == [] || (fraction[0] == POINT && Digits(fraction[1..]))
  {
    var n := FractionLength(s);
    if n > 0 {
      DigitsCounted(s[1..], n - 1);
      assert s[..n][1..] == s[1..][..n - 1];
    }
  }

  lemma GoodExponent(s: Text)
    requires ExponentLength(s) == |s|
    ensures s == [] || ((s[0] == 101 || s[0] == 69) && (Digits(s[1..]) || (|s| > 1 && Sign(s[1]) && Digits(s[2..]))))
  {
    if |s| >= 3 && Sign(s[1]) && Digit(s[2]) {
      DigitsCounted(s[2..], |s| - 2);
      assert s[2..][..|s| - 2] == s[2..];
    } else if s != [] {
      DigitsCounted(s[1..], |s| - 1);
      assert s[1..][..|s| - 1] == s[1..];
    }
  }

  lemma Split(s: Text, i: nat, f: nat)
    requires i <= |s| && f <= |s[i..]|
    ensures s[..i] + s[i..][..f] + s[i..][f..] == s
  {
    assert s[i..][..f] + s[i..][f..] == s[i..];
  }

  lemma UnsignedMeans(negative: bool, s: Text)
    requires UnsignedLength(s) == |s| > 0
    ensures GoodNumeral(UnsignedNumeral(negative, s)) && UnsignedText(UnsignedNumeral(negative, s)) == s
  {
    var after := s[IntegerLength(s)..];
    GoodInteger(s);
    GoodFraction(after);
    GoodExponent(after[FractionLength(after)..]);
    Split(s, IntegerLength(s), FractionLength(after));
  }

  lemma GoodInteger(s: Text)
    requires IntegerLength(s) > 0
    ensures var integer := s[..IntegerLength(s)]; Digits(integer) && (integer[0] == 48 ==> |integer| == 1)
  {
    DigitsCounted(s, IntegerLength(s));
  }

  lemma NumeralMeans(token: Text)
    requires NumberLength(token) == |token| > 0
    ensures GoodNumeral(NumeralOf(token)) && NumeralText(NumeralOf(token)) == token
  {
    if token[0] == MINUS {
      UnsignedMeans(true, token[1..]);
      assert [MINUS] + token[1..] == token;
    } else {
      UnsignedMeans(false, token);
      assert [] + token == token;
    }
  }

  lemma {:induction false} CanonicalMeans(v: Json)
    requires Printable(v)
    ensures Good(Canonical(v)) && Meaning(Canonical(v)) == v
    decreases v, 0
  {
    match v
    case Number(token) => NumeralMeans(token);
    case String(s) => CharsMean(s);
    case Array(items) => if items.Item? { ItemsMean(items); }
    case Object(members) => if members.Member? { MembersMean(members); }
    case _ =>
  }

  lemma {:induction false} ItemsMean(items: Items)
    requires items.Item? && PrintableItems(items)
    ensures GoodElements(CanonicalItems(items)) && ItemsMeaning(CanonicalItems(items)) == items
    decreases items, 1
  {
    CanonicalMeans(items.head);
    if items.tail.Item? {
      ItemsMean(items.tail);
    }
  }

  lemma {:induction false} MembersMean(members: Members)
    requires members.Member? && PrintableMembers(members)
    ensures GoodMembers(CanonicalMembers(members)) && MembersMeaning(CanonicalMembers(members)) == members
    decreases members, 1
  {
    CharsMean(members.key);
    CanonicalMeans(members.value);
    if members.rest.Member? {
      MembersMean(members.rest);
    }
  }

  /** What is printed is read back, unless an object repeats a name: then it is refused. */
  lemma PrintThenRead(v: Json)
    requires Printable(v)
    ensures Parse(Print(v)) == Some(v) && (Scan(Print(v)) <==> DistinctNames(v))
  {
    CanonicalMeans(v);
    DocumentsAreRead([], Canonical(v), []);
    assert DocumentText([], Canonical(v), []) == Print(v);
  }
}
