/** The scanner against `JSON.parse`: on every text that is JSON the scanner lets through exactly those
    in which no object, at any depth, repeats a decoded name. */
module JsonAgreement {
  import opened Wrappers
  import opened JsonText
  import opened JsonScanner

  // ---- lexical agreement -------------------------------------------------------------------

  lemma {:induction false} SkipAgrees(s: Text)
    requires SkipJsonSpace(s) == [] || !Space(SkipJsonSpace(s)[0])
    ensures SkipSpace(s) == SkipJsonSpace(s)
    decreases |s|
  {
    if s != [] && JsonSpace(s[0]) {
      SkipAgrees(s[1..]);
    }
  }

  lemma HexIsPlain(s: Text)
    requires |s| >= 4 && FourHex(s).Some?
    ensures forall i :: 0 <= i < 4 ==> HexValue(s[i]).Some? && s[i] != QUOTE && s[i] != BACKSLASH
  {
  }

  lemma ScanFour(s: Text)
    requires |s| >= 4 && forall i :: 0 <= i < 4 ==> s[i] != QUOTE && s[i] != BACKSLASH
    ensures ScanBody(s, false) == ScanBody(s[4..], false)
  {
    assert s[1..][1..] == s[2..] && s[2..][1..] == s[3..] && s[3..][1..] == s[4..];
    assert ScanBody(s, false) == ScanBody(s[1..], false) == ScanBody(s[2..], false);
    assert ScanBody(s[2..], false) == ScanBody(s[3..], false) == ScanBody(s[4..], false);
  }

  /** A string that decodes ends where the scanner says it does. */
  lemma {:induction false} DecodedIsScanned(s: Text)
    requires DecodeBody(s).Some?
    ensures ScanBody(s, false) == Some(DecodeBody(s).value.1)
    decreases |s|
  {
    if s[0] == BACKSLASH {
      assert s[1..][1..] == s[2..];
      assert ScanBody(s, false) == ScanBody(s[1..], true) == ScanBody(s[2..], false);
      if s[1] == 117 {
        assert s[2..6] == s[2..][..4] && s[2..][4..] == s[6..];
        HexIsPlain(s[2..6]);
        forall i | 0 <= i < 4 ensures s[2..][i] != QUOTE && s[2..][i] != BACKSLASH {
          assert s[2..][i] == s[2..6][i];
        }
        ScanFour(s[2..]);
        DecodedIsScanned(s[6..]);
      } else {
        DecodedIsScanned(s[2..]);
      }
    } else if s[0] != QUOTE {
      DecodedIsScanned(s[1..]);
    }
  }

  /** Decoding a string does not look past its closing quote. */
  lemma {:induction false} DecodePrefix(s: Text, n: nat)
    requires DecodeBody(s).Some? && n == |s| - |DecodeBody(s).value.1|
    ensures n > 0 && DecodeBody(s[..n]) == Some((DecodeBody(s).value.0, []))
    decreases |s|
  {
    var p := s[..n];
    if s[0] == BACKSLASH {
      if s[1] == 117 {
        DecodePrefix(s[6..], n - 6);
        assert p[2..6] == s[2..6] && p[6..] == s[6..][..n - 6];
      } else {
        DecodePrefix(s[2..], n - 2);
        assert p[2..] == s[2..][..n - 2];
      }
    } else if s[0] != QUOTE {
      DecodePrefix(s[1..], n - 1);
      assert p[1..] == s[1..][..n - 1];
    }
  }

  lemma StringAgrees(s: Text)
    requires ParseString(s).Some?
    ensures var (decoded, rest) := ParseString(s).value;
      s != [] && s[0] == QUOTE && ScanString(s) == Some(rest) && DecodeToken(s[..|s| - |rest|]) == Some(decoded)
  {
    var rest := ParseString(s).value.1;
    var n := |s| - |rest|;
    DecodedIsScanned(s[1..]);
    DecodePrefix(s[1..], n - 1);
    assert s[..n][1..] == s[1..][..n - 1];
  }

  lemma ScalarAgrees(s: Text)
    requires ParseScalar(s).Some?
    ensures var (value, rest) := ParseScalar(s).value;
      ScanLiteral(s) == Some(rest) && DistinctNames(value)
    ensures s != [] && !Space(s[0])
  {
  }

  // ---- values ------------------------------------------------------------------------------

  lemma {:induction false} SkipTwice(s: Text)
    ensures SkipSpace(SkipSpace(s)) == SkipSpace(s)
  {
  }

  /** Spaces before a value, element or member do not matter. */
  lemma ScanSkipped(s: Text, keys: set<Text>)
    ensures ScanValue(SkipSpace(s)) == ScanValue(s)
    ensures ScanItems(SkipSpace(s)) == ScanItems(s)
    ensures ScanMembers(SkipSpace(s), keys) == ScanMembers(s, keys)
  {
    SkipTwice(s);
  }

  /** What the scanner makes of a value that `JSON.parse` reads. */
  predicate ValueAgrees(text: Text) {
    match ParseValue(text)
    case None => true
    case Some((value, rest)) => ScanValue(text) == if DistinctNames(value) then Some(rest) else None
  }

  predicate ItemsAgree(text: Text) {
    match ParseItems(text)
    case None => true
    case Some((items, rest)) => ScanItems(text) == if DistinctInItems(items) then Some(rest) else None
  }

  predicate MembersAgree(text: Text, keys: set<Text>) {
    match ParseMembers(text)
    case None => true
    case Some((members, rest)) => ScanMembers(text, keys) == if DistinctMembers(members, keys) then Some(rest) else None
  }

  lemma {:induction false} ValueScans(text: Text)
    ensures ValueAgrees(text)
    decreases |text|, 0
  {
    if ParseValue(text).Some? {
      var s := SkipJsonSpace(text);
      if s[0] == OPEN_BRACE {
        SkipAgrees(text);
        ObjectScans(s);
      } else if s[0] == OPEN_BRACKET {
        SkipAgrees(text);
        ArrayScans(s);
      } else if s[0] == QUOTE {
        SkipAgrees(text);
        StringAgrees(s);
      } else {
        ScalarAgrees(s);
        SkipAgrees(text);
      }
    }
  }

  lemma {:induction false} ObjectScans(s: Text)
    requires s != [] && s[0] == OPEN_BRACE && SkipJsonSpace(s) == s && ParseValue(s).Some?
    ensures ValueAgrees(s)
    decreases |s| - 1, 3
  {
    var t := SkipJsonSpace(s[1..]);
    if t != [] && t[0] == CLOSE_BRACE {
      SkipAgrees(s[1..]);
    } else {
      MembersScan(s[1..], {});
      ScanSkipped(s[1..], {});
      StringAgrees(t);
      SkipAgrees(s[1..]);
    }
  }

  lemma {:induction false} ArrayScans(s: Text)
    requires s != [] && s[0] == OPEN_BRACKET && SkipJsonSpace(s) == s && ParseValue(s).Some?
    ensures ValueAgrees(s)
    decreases |s| - 1, 3
  {
    var t := SkipJsonSpace(s[1..]);
    if t != [] && t[0] == CLOSE_BRACKET {
      SkipAgrees(s[1..]);
    } else {
      ItemsScan(s[1..]);
      ScanSkipped(s[1..], {});
      ValueStarts(s[1..]);
      SkipAgrees(s[1..]);
    }
  }

  /** A value that parses does not start with a space of any kind. */
  lemma ValueStarts(text: Text)
    requires ParseValue(text).Some?
    ensures var s := SkipJsonSpace(text); s != [] && !Space(s[0]) && s[0] != CLOSE_BRACKET
  {
    var s := SkipJsonSpace(text);
    if s[0] != OPEN_BRACE && s[0] != OPEN_BRACKET && s[0] != QUOTE {
      ScalarAgrees(s);
    }
  }

  lemma {:induction false} ItemsScan(text: Text)
    ensures ItemsAgree(text)
    decreases |text|, 1
  {
    if ParseItems(text).Some? {
      ValueScans(text);
      var after := ParseValue(text).value.1;
      var s := SkipJsonSpace(after);
      SkipAgrees(after);
      if s[0] == COMMA {
        ItemsScan(s[1..]);
      }
    }
  }

  lemma {:induction false} MembersScan(text: Text, keys: set<Text>)
    ensures MembersAgree(text, keys)
    decreases |text|, 1
  {
    if ParseMembers(text).Some? {
      var token := SkipJsonSpace(text);
      StringAgrees(token);
      SkipAgrees(text);
      var (key, afterKey) := ParseString(token).value;
      var colon := SkipJsonSpace(afterKey);
      SkipAgrees(afterKey);
      ValueScans(colon[1..]);
      var after := ParseValue(colon[1..]).value.1;
      var s := SkipJsonSpace(after);
      SkipAgrees(after);
      if s[0] == COMMA {
        MembersScan(s[1..], keys + {key});
      }
    }
  }

  // ---- the result --------------------------------------------------------------------------

  /** A JSON text is let through exactly when no object in it repeats a name. */
  lemma ScanIffDistinct(text: Text)
    requires Parse(text).Some?
    ensures Scan(text) <==> DistinctNames(Parse(text).value)
  {
    ValueScans(text);
    SkipAgrees(ParseValue(text).value.1);
  }

  /** Nothing with a repeated name ever comes out of scan-then-parse, and nothing else is lost. */
  lemma ScanThenParse(text: Text)
    ensures var r := if Scan(text) then Parse(text) else None;
      && (r.Some? ==> DistinctNames(r.value))
      && (Parse(text).Some? && DistinctNames(Parse(text).value) ==> r == Parse(text))
  {
    if Parse(text).Some? {
      ScanIffDistinct(text);
    }
  }
}
