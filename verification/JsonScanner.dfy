/** `scanJsonForDuplicateKeys`: a recursive descent over one shared index, laxer than JSON about
    spaces and string contents, that refuses an object with a repeated decoded key. */
module JsonScanner {
  import opened Wrappers
  import opened JsonText

  // ---- what the scanner does, on the text still to come ------------------------------------

  /** `\s` of a JavaScript regular expression. */
  predicate Space(u: Unit) {
    || 9 <= u <= 13 || u == 32 || u == 160 || u == 0x1680 || 0x2000 <= u <= 0x200a
    || u == 0x2028 || u == 0x2029 || u == 0x202f || u == 0x205f || u == 0x3000 || u == 0xfeff
  }

  function SkipSpace(s: Text): (rest: Text)
    ensures |rest| <= |s|
    ensures rest == [] || !Space(rest[0])
  {
    if s == [] || !Space(s[0]) then s else SkipSpace(s[1..])
  }

  /** Past the closing quote; a backslash hides whatever follows it. */
  function ScanBody(s: Text, escaped: bool): (rest: Option<Text>)
    ensures rest.Some? ==> |rest.value| < |s|
  {
    if s == [] then None
    else if escaped then ScanBody(s[1..], false)
    else if s[0] == BACKSLASH then ScanBody(s[1..], true)
    else if s[0] == QUOTE then Some(s[1..])
    else ScanBody(s[1..], false)
  }

  function ScanString(s: Text): (rest: Option<Text>)
    ensures rest.Some? ==> |rest.value| < |s|
  {
    if s != [] && s[0] == QUOTE then ScanBody(s[1..], false) else None
  }

  /** `JSON.parse` of one string token. */
  function DecodeToken(token: Text): Option<Text> {
    match ParseString(token)
    case None => None
    case Some((decoded, rest)) => if rest == [] then Some(decoded) else None
  }

  /** The literal the regular expression matches. */
  function ScanLiteral(s: Text): (rest: Option<Text>)
    ensures rest.Some? ==> |rest.value| < |s|
  {
    if NumberLength(s) > 0 then Some(s[NumberLength(s)..])
    else if StartsWith(s, TRUE_WORD) then Some(s[4..])
    else if StartsWith(s, FALSE_WORD) then Some(s[5..])
    else if StartsWith(s, NULL_WORD) then Some(s[4..])
    else None
  }

  function ScanValue(text: Text): (rest: Option<Text>)
    ensures rest.Some? ==> |rest.value| < |text|
    decreases |text|, 0
  {
    var s := SkipSpace(text);
    if s == [] then None
    else if s[0] == OPEN_BRACE then
      var t := SkipSpace(s[1..]);
      if t != [] && t[0] == CLOSE_BRACE then Some(t[1..]) else ScanMembers(t, {})
    else if s[0] == OPEN_BRACKET then
      var t := SkipSpace(s[1..]);
      if t != [] && t[0] == CLOSE_BRACKET then Some(t[1..]) else ScanItems(t)
    else if s[0] == QUOTE then ScanString(s)
    else ScanLiteral(s)
  }

  function ScanItems(text: Text): (rest: Option<Text>)
    ensures rest.Some? ==> |rest.value| < |text|
    decreases |text|, 1
  {
    if text == [] then None
    else match ScanValue(text)
      case None => None
      case Some(after) =>
        var s := SkipSpace(after);
        if s == [] then None
        else if s[0] == CLOSE_BRACKET then Some(s[1..])
        else if s[0] != COMMA then None
        else ScanItems(s[1..])
  }

  /** One member of an object that has `keys` so far: its key, and what follows its value. */
  function ScanMember(text: Text, keys: set<Text>): (member: Option<(Text, Text)>)
    ensures member.Some? ==> |member.value.1| < |text|
    decreases |text|, 1
  {
    var token := SkipSpace(text);
    match ScanString(token)
    case None => None
    case Some(afterKey) =>
      var key := DecodeToken(token[..|token| - |afterKey|]);
      if key.None? || key.value in keys then None
      else
        var colon := SkipSpace(afterKey);
        if colon == [] || colon[0] != COLON then None
        else match ScanValue(colon[1..]) case None => None case Some(after) => Some((key.value, after))
  }

  function ScanMembers(text: Text, keys: set<Text>): (rest: Option<Text>)
    ensures rest.Some? ==> |rest.value| < |text|
    decreases |text|, 2
  {
    if text == [] then None
    else match ScanMember(text, keys)
      case None => None
      case Some((key, after)) =>
        var s := SkipSpace(after);
        if s == [] then None
        else if s[0] == CLOSE_BRACE then Some(s[1..])
        else if s[0] != COMMA then None
        else ScanMembers(s[1..], keys + {key})
  }

  /** The text is let through. */
  predicate Scan(text: Text) {
    match ScanValue(text) case None => false case Some(rest) => SkipSpace(rest) == []
  }

  // ---- the scanner itself ------------------------------------------------------------------

  class Scanner {
    const text: Text
    var index: nat

    constructor (text: Text)
      ensures this.text == text && index == 0
    {
      this.text, index := text, 0;
    }

    predicate Valid()
      reads this`index
    {
      index <= |text|
    }

    /** What is still to come. */
    function Rest(): Text
      requires Valid()
      reads this`index
    {
      text[index..]
    }

    method Whitespace()
      requires Valid()
      modifies this`index
      ensures Valid() && Rest() == SkipSpace(old(Rest())) && index >= old(index)
    {
      while index < |text| && Space(text[index])
        invariant old(index) <= index <= |text|
        invariant SkipSpace(old(Rest())) == SkipSpace(text[index..])
      {
        assert text[index..][1..] == text[index + 1..];
        index := index + 1;
      }
    }

    /** The token of the string at the index, if it ends. */
    method ParseStringToken() returns (token: Option<Text>)
      requires Valid()
      modifies this`index
      ensures Valid() && index >= old(index)
      ensures match ScanString(old(Rest()))
        case None => token == None
        case Some(rest) => Rest() == rest && token == Some(old(Rest())[..|old(Rest())| - |rest|]) && index > old(index)
    {
      var start := index;
      if index >= |text| || text[index] != QUOTE {
        return None;
      }
      assert text[index..][1..] == text[index + 1..];
      index := index + 1;
      var escaped := false;
      while index < |text|
        invariant start < index <= |text|
        invariant ScanBody(text[start + 1..], false) == ScanBody(text[index..], escaped)
      {
        var ch := text[index];
        assert text[index..][1..] == text[index + 1..];
        index := index + 1;
        if escaped {
          escaped := false;
        } else if ch == BACKSLASH {
          escaped := true;
        } else if ch == QUOTE {
          assert text[start..][..index - start] == text[start..index];
          return Some(text[start..index]);
        }
      }
      return None;
    }

    /** Steps over `u` if it comes next. */
    method Accept(u: Unit) returns (accepted: bool)
      requires Valid()
      modifies this`index
      ensures Valid() && accepted == (old(Rest()) != [] && old(Rest())[0] == u)
      ensures if accepted then index == old(index) + 1 && Rest() == old(Rest())[1..] else index == old(index)
    {
      accepted := index < |text| && text[index] == u;
      if accepted {
        index := index + 1;
      }
    }

    method Literal() returns (ok: bool)
      requires Valid()
      modifies this`index
      ensures Valid() && index >= old(index)
      ensures match ScanLiteral(old(Rest()))
        case None => !ok
        case Some(rest) => ok && Rest() == rest && index > old(index)
    {
      var s := text[index..];
      var length :=
        if NumberLength(s) > 0 then NumberLength(s)
        else if StartsWith(s, TRUE_WORD) || StartsWith(s, NULL_WORD) then 4
        else if StartsWith(s, FALSE_WORD) then 5
        else 0;
      if length == 0 {
        return false;
      }
      index := index + length;
      return true;
    }

    /** One value; the answer is whether nothing was thrown. */
    method Value() returns (ok: bool)
      requires Valid()
      modifies this`index
      ensures Valid() && index >= old(index)
      ensures match ScanValue(old(Rest()))
        case None => !ok
        case Some(rest) => ok && Rest() == rest && index > old(index)
      decreases |text| - index, 0
    {
      Whitespace();
      if index == |text| {
        return false;
      }
      var brace := Accept(OPEN_BRACE);
      if brace {
        Whitespace();
        ok := Accept(CLOSE_BRACE);
        if !ok {
          ok := MembersOfObject();
        }
        return;
      }
      var bracket := Accept(OPEN_BRACKET);
      if bracket {
        Whitespace();
        ok := Accept(CLOSE_BRACKET);
        if !ok {
          ok := ItemsOfArray();
        }
        return;
      }
      if text[index] == QUOTE {
        var token := ParseStringToken();
        return token.Some?;
      }
      ok := Literal();
    }

    /** The loop over the elements of an array that is not empty. */
    method ItemsOfArray() returns (ok: bool)
      requires Valid()
      modifies this`index
      ensures Valid() && index >= old(index)
      ensures match ScanItems(old(Rest()))
        case None => !ok
        case Some(rest) => ok && Rest() == rest && index > old(index)
      decreases |text| - index, 1
    {
      while index < |text|
        invariant old(index) <= index <= |text|
        invariant ScanItems(old(Rest())) == ScanItems(Rest())
        decreases |text| - index
      {
        ok := Value();
        if !ok {
          return;
        }
        Whitespace();
        ok := Accept(CLOSE_BRACKET);
        if ok {
          return;
        }
        var comma := Accept(COMMA);
        if !comma {
          return;
        }
      }
      return false;
    }

    /** The key, the colon and the value of one member. */
    method MemberOfObject(keys: set<Text>) returns (key: Option<Text>)
      requires Valid()
      modifies this`index
      ensures Valid() && index >= old(index)
      ensures match ScanMember(old(Rest()), keys)
        case None => key == None
        case Some((name, after)) => key == Some(name) && Rest() == after && index > old(index)
      decreases |text| - index, 1
    {
      Whitespace();
      var keyToken := ParseStringToken();
      if keyToken.None? {
        return None;
      }
      key := DecodeToken(keyToken.value);
      if key.None? || key.value in keys {
        return None;
      }
      Whitespace();
      var colon := Accept(COLON);
      if !colon {
        return None;
      }
      var ok := Value();
      if !ok {
        return None;
      }
    }

    /** The loop over the members of an object that is not empty. */
    method MembersOfObject() returns (ok: bool)
      requires Valid()
      modifies this`index
      ensures Valid() && index >= old(index)
      ensures match ScanMembers(old(Rest()), {})
        case None => !ok
        case Some(rest) => ok && Rest() == rest && index > old(index)
      decreases |text| - index, 2
    {
      var keys: set<Text> := {};
      while index < |text|
        invariant old(index) <= index <= |text|
        invariant ScanMembers(old(Rest()), {}) == ScanMembers(Rest(), keys)
        decreases |text| - index
      {
        var key := MemberOfObject(keys);
        if key.None? {
          return false;
        }
        keys := keys + {key.value};
        Whitespace();
        ok := Accept(CLOSE_BRACE);
        if ok {
          return;
        }
        var comma := Accept(COMMA);
        if !comma {
          return;
        }
      }
      return false;
    }
  }

  /** `parseJsonRejectDuplicateKeys`: scan, then parse; `None` when either throws. */
  method ParseJsonRejectDuplicateKeys(text: Text) returns (r: Option<Json>)
    ensures r == if Scan(text) then Parse(text) else None
  {
    var scanner := new Scanner(text);
    assert text[0..] == text;
    var ok := scanner.Value();
    if !ok {
      return None;
    }
    scanner.Whitespace();
    if scanner.index != |text| {
      return None;
    }
    return Parse(text);
  }
}
