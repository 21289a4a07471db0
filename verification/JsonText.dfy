/** JSON texts as RFC 8259 defines them, on UTF-16 code units: a grammar tree that keeps every choice
    of the writer (spaces, escapes), the text it stands for, the value it means, and `JSON.parse`. */
module JsonText {
  import opened Wrappers

  /** A UTF-16 code unit. */
  type Unit = n: int | 0 <= n < 0x1_0000
  type Text = seq<Unit>

  const QUOTE: Unit := 34
  const BACKSLASH: Unit := 92
  const COMMA: Unit := 44
  const COLON: Unit := 58
  const OPEN_BRACKET: Unit := 91
  const CLOSE_BRACKET: Unit := 93
  const OPEN_BRACE: Unit := 123
  const CLOSE_BRACE: Unit := 125
  const MINUS: Unit := 45
  const PLUS: Unit := 43
  const POINT: Unit := 46

  // ---- lexical matters -------------------------------------------------------------------

  predicate Digit(u: Unit) {
    48 <= u <= 57
  }

  function HexValue(u: Unit): Option<nat> {
    if 48 <= u <= 57 then Some(u - 48)
    else if 97 <= u <= 102 then Some(u - 87)
    else if 65 <= u <= 70 then Some(u - 55)
    else None
  }

  /** Insignificant whitespace, section 2 of RFC 8259. */
  predicate JsonSpace(u: Unit) {
    u == 32 || u == 9 || u == 10 || u == 13
  }

  predicate AllSpace(s: Text) {
    forall u :: u in s ==> JsonSpace(u)
  }

  function SkipJsonSpace(s: Text): (rest: Text)
    ensures |rest| <= |s| && (rest == [] || !JsonSpace(rest[0]))
  {
    if s == [] || !JsonSpace(s[0]) then s else SkipJsonSpace(s[1..])
  }

  predicate StartsWith(s: Text, prefix: Text) {
    prefix <= s
  }

  const NULL_WORD: Text := [110, 117, 108, 108]
  const TRUE_WORD: Text := [116, 114, 117, 101]
  const FALSE_WORD: Text := [102, 97, 108, 115, 101]

  // ---- numbers ---------------------------------------------------------------------------

  /** How many digits `s` starts with. */
  function DigitCount(s: Text): (n: nat)
    ensures n <= |s|
    ensures forall i :: 0 <= i < n ==> Digit(s[i])
    ensures n < |s| ==> !Digit(s[n])
  {
    if s == [] || !Digit(s[0]) then 0 else 1 + DigitCount(s[1..])
  }

  /** The integer part: a single zero, or digits that do not start with one. */
  function IntegerLength(s: Text): (n: nat)
    ensures n <= |s|
  {
    if s == [] || !Digit(s[0]) then 0
    else if s[0] == 48 then 1
    else DigitCount(s)
  }

  function FractionLength(s: Text): (n: nat)
    ensures n <= |s|
  {
    if |s| >= 2 && s[0] == POINT && Digit(s[1]) then 1 + DigitCount(s[1..]) else 0
  }

  predicate Sign(u: Unit) {
    u == PLUS || u == MINUS
  }

  function ExponentLength(s: Text): (n: nat)
    ensures n <= |s|
  {
    if s != [] && (s[0] == 101 || s[0] == 69) then
      if |s| >= 3 && Sign(s[1]) && Digit(s[2]) then 2 + DigitCount(s[2..])
      else if |s| >= 2 && Digit(s[1]) then 1 + DigitCount(s[1..])
      else 0
    else 0
  }

  function UnsignedLength(s: Text): (n: nat)
    ensures n <= |s|
  {
    var integer := IntegerLength(s);
    if integer == 0 then 0
    else
      var after := s[integer..];
      var fraction := FractionLength(after);
      integer + fraction + ExponentLength(after[fraction..])
  }

  /** The longest number at the start of `s`, section 6 of RFC 8259; zero when there is none. */
  function NumberLength(s: Text): (n: nat)
    ensures n <= |s|
  {
    if s != [] && s[0] == MINUS then
      var unsigned := UnsignedLength(s[1..]);
      if unsigned == 0 then 0 else 1 + unsigned
    else UnsignedLength(s)
  }

  // ---- strings ---------------------------------------------------------------------------

  /** What a two-character escape stands for, section 7 of RFC 8259. */
  function EscapeValue(u: Unit): Option<Unit> {
    if u == QUOTE || u == BACKSLASH || u == 47 then Some(u)
    else if u == 98 then Some(8)
    else if u == 102 then Some(12)
    else if u == 110 then Some(10)
    else if u == 114 then Some(13)
    else if u == 116 then Some(9)
    else None
  }

  function FourHex(s: Text): (v: Option<Unit>)
    requires |s| >= 4
  {
    var a, b, c, d := HexValue(s[0]), HexValue(s[1]), HexValue(s[2]), HexValue(s[3]);
    if a.Some? && b.Some? && c.Some? && d.Some? then Some(((a.value * 16 + b.value) * 16 + c.value) * 16 + d.value)
      else None
  }

  predicate Unescaped(u: Unit) {
    u >= 32 && u != QUOTE && u != BACKSLASH
  }

  /** The string whose opening quote was just read: its value, and what follows its closing quote. */
  function DecodeBody(s: Text): (r: Option<(Text, Text)>)
    ensures r.Some? ==> |r.value.1| < |s|
  {
    if s == [] then None
    else if s[0] == QUOTE then Some(([], s[1..]))
    else if s[0] == BACKSLASH then
      if |s| < 2 then None
      else if s[1] == 117 then
        if |s| < 6 || FourHex(s[2..6]).None? then None else Prepend(FourHex(s[2..6]).value, DecodeBody(s[6..]))
      else if EscapeValue(s[1]).None? then None
      else Prepend(EscapeValue(s[1]).value, DecodeBody(s[2..]))
    else if !Unescaped(s[0]) then None
    else Prepend(s[0], DecodeBody(s[1..]))
  }

  function Prepend(u: Unit, r: Option<(Text, Text)>): Option<(Text, Text)> {
    match r case None => None case Some(decoded) => Some(([u] + decoded.0, decoded.1))
  }

  function ParseString(s: Text): (r: Option<(Text, Text)>)
    ensures r.Some? ==> |r.value.1| < |s|
  {
    if s != [] && s[0] == QUOTE then DecodeBody(s[1..]) else None
  }

  // ---- values and JSON.parse -------------------------------------------------------------

  /** A JSON value; a number is kept as it is written. */
  datatype Json =
    | Null | Bool(b: bool) | Number(token: Text) | String(s: Text) | Array(items: Items) | Object(members: Members)
  datatype Items = NoItems | Item(head: Json, tail: Items)
  datatype Members = NoMembers | Member(key: Text, value: Json, rest: Members)

  function ParseScalar(s: Text): (r: Option<(Json, Text)>)
    ensures r.Some? ==> |r.value.1| < |s|
  {
    if StartsWith(s, NULL_WORD) then Some((Null, s[4..]))
    else if StartsWith(s, TRUE_WORD) then Some((Bool(true), s[4..]))
    else if StartsWith(s, FALSE_WORD) then Some((Bool(false), s[5..]))
    else if NumberLength(s) > 0 then Some((Number(s[..NumberLength(s)]), s[NumberLength(s)..]))
    else None
  }

  /** A value with the whitespace before it, and what follows it. */
  function ParseValue(text: Text): (r: Option<(Json, Text)>)
    ensures r.Some? ==> |r.value.1| < |text|
    decreases |text|, 0
  {
    var s := SkipJsonSpace(text);
    if s == [] then None
    else if s[0] == OPEN_BRACE then
      var t := SkipJsonSpace(s[1..]);
      if t != [] && t[0] == CLOSE_BRACE then Some((Object(NoMembers), t[1..]))
      else match ParseMembers(s[1..]) case None => None case Some(members) => Some((Object(members.0), members.1))
    else if s[0] == OPEN_BRACKET then
      var t := SkipJsonSpace(s[1..]);
      if t != [] && t[0] == CLOSE_BRACKET then Some((Array(NoItems), t[1..]))
      else match ParseItems(s[1..]) case None => None case Some(items) => Some((Array(items.0), items.1))
    else if s[0] == QUOTE then
      match ParseString(s) case None => None case Some(decoded) => Some((String(decoded.0), decoded.1))
    else ParseScalar(s)
  }

  /** The elements of an array from one element on, through the closing bracket. */
  function ParseItems(text: Text): (r: Option<(Items, Text)>)
    ensures r.Some? ==> |r.value.1| < |text|
    decreases |text|, 1
  {
    match ParseValue(text)
    case None => None
    case Some((value, after)) =>
      var s := SkipJsonSpace(after);
      if s == [] then None
      else if s[0] == CLOSE_BRACKET then Some((Item(value, NoItems), s[1..]))
      else if s[0] != COMMA then None
      else match ParseItems(s[1..]) case None => None case Some(items) => Some((Item(value, items.0), items.1))
  }

  /** The members of an object from one member on, through the closing brace. */
  function ParseMembers(text: Text): (r: Option<(Members, Text)>)
    ensures r.Some? ==> |r.value.1| < |text|
    decreases |text|, 1
  {
    match ParseString(SkipJsonSpace(text))
    case None => None
    case Some((key, afterKey)) =>
      var colon := SkipJsonSpace(afterKey);
      if colon == [] || colon[0] != COLON then None
      else match ParseValue(colon[1..])
        case None => None
        case Some((value, after)) =>
          var s := SkipJsonSpace(after);
          if s == [] then None
          else if s[0] == CLOSE_BRACE then Some((Member(key, value, NoMembers), s[1..]))
          else if s[0] != COMMA then None
          else match ParseMembers(s[1..]) case None => None case Some(members) =>
            Some((Member(key, value, members.0), members.1))
  }

  /** `JSON.parse`. */
  function Parse(text: Text): Option<Json> {
    match ParseValue(text)
    case None => None
    case Some((value, rest)) => if SkipJsonSpace(rest) == [] then Some(value) else None
  }

  // ---- duplicate names -------------------------------------------------------------------

  /** No object at any depth repeats a name. */
  predicate DistinctNames(v: Json) {
    match v
    case Array(items) => DistinctInItems(items)
    case Object(members) => DistinctMembers(members, {})
    case _ => true
  }

  predicate DistinctInItems(items: Items) {
    items.NoItems? || (DistinctNames(items.head) && DistinctInItems(items.tail))
  }

  predicate DistinctMembers(members: Members, seen: set<Text>) {
    members.NoMembers? ||
    (members.key !in seen && DistinctNames(members.value) && DistinctMembers(members.rest, seen + {members.key}))
  }
}
