/** The chunked text search (apps/runtime/src/filesystem-engine.ts): one file is matched line by line
    from byte ranges of any size, keeping only the last |query| - 1 bytes of the current line. */
module TextSearch {
  import opened Wrappers

  type byte = x: int | 0 <= x < 256
  type Bytes = seq<byte>

  const NEWLINE: byte := 0x0a
  const COMPAT_SEARCH_CHUNK_BYTES: nat := 256 * 1024
  const MAX_COMPAT_LINE_PREFIX_BYTES: nat := 4 * 1024

  datatype Match = Match(path: string, line: nat, text: string)
  datatype Error = PreconditionFailed | InvalidRequest

  /** What one byte-range read answers. */
  datatype RangeReply = Unreadable | Range(chunk: Bytes, bytes: nat, offset: nat, fileSize: nat, eof: bool)

  type Reader = (nat, nat) -> RangeReply

  function Min(a: int, b: int): int { if a < b then a else b }

  // ---- the obvious whole-file search -----------------------------------------------------

  predicate OccursAt(hay: Bytes, needle: Bytes, i: int) {
    0 <= i && i + |needle| <= |hay| && hay[i..i + |needle|] == needle
  }

  predicate Contains(hay: Bytes, needle: Bytes) {
    exists i :: 0 <= i <= |hay| && OccursAt(hay, needle, i)
  }

  /** The finished lines of a text and the bytes after its last newline. */
  datatype Split = Split(lines: seq<Bytes>, open: Bytes)

  function SplitLines(text: Bytes): Split {
    if text == [] then Split([], [])
    else
      var n := |text| - 1;
      var s := SplitLines(text[..n]);
      if text[n] == NEWLINE then Split(s.lines + [s.open], []) else Split(s.lines, s.open + [text[n]])
  }

  /** The lines of a file; what follows the last newline is a line unless it is empty. */
  function Lines(text: Bytes): seq<Bytes> {
    var s := SplitLines(text);
    s.lines + if s.open == [] then [] else [s.open]
  }

  function Prefix(line: Bytes): Bytes {
    line[..Min(|line|, MAX_COMPAT_LINE_PREFIX_BYTES)]
  }

  /** The matches of the query among the lines, numbered from one. `decode` renders a line prefix. */
  function Hits(lines: seq<Bytes>, query: Bytes, path: string, decode: Bytes -> string): seq<Match> {
    if lines == [] then []
    else
      var n := |lines| - 1;
      Hits(lines[..n], query, path, decode) + if Contains(lines[n], query) then
        [Match(path, n + 1, decode(Prefix(lines[n])))] else []
  }

  function FirstN<T>(s: seq<T>, n: nat): seq<T> {
    s[..Min(|s|, n)]
  }

  // ---- what splitting and searching do under appending -----------------------------------

  lemma {:induction false} SplitAppendSegment(text: Bytes, segment: Bytes)
    requires NEWLINE !in segment
    ensures SplitLines(text + segment) == Split(SplitLines(text).lines, SplitLines(text).open + segment)
    decreases |segment|
  {
    if segment == [] {
      assert text + segment == text;
    } else {
      var n := |segment| - 1;
      SplitAppendSegment(text, segment[..n]);
      assert (text + segment)[..|text| + n] == text + segment[..n];
    }
  }

  lemma SplitAppendNewline(text: Bytes)
    ensures SplitLines(text + [NEWLINE]) == Split(SplitLines(text).lines + [SplitLines(text).open], [])
  {
    assert (text + [NEWLINE])[..|text|] == text;
  }

  /** The part of a line a later occurrence can still reach back into. */
  function Tail(line: Bytes, query: Bytes): Bytes
    requires query != []
  {
    line[|line| - Min(|line|, |query| - 1)..]
  }

  /** A line without the query gains one exactly when its tail and the new segment contain it. */
  lemma TailDecides(line: Bytes, segment: Bytes, query: Bytes)
    requires query != [] && !Contains(line, query)
    ensures Contains(line + segment, query) <==> Contains(Tail(line, query) + segment, query)
  {
    var whole, window := line + segment, Tail(line, query) + segment;
    var skip := |line| - |Tail(line, query)|;
    assert window == whole[skip..];
    if Contains(whole, query) {
      var i :| 0 <= i <= |whole| && OccursAt(whole, query, i);
      if i < skip {
        assert line[i..i + |query|] == whole[i..i + |query|];
        assert OccursAt(line, query, i);
      } else {
        assert window[i - skip..i - skip + |query|] == whole[i..i + |query|];
        assert OccursAt(window, query, i - skip);
      }
    }
    if Contains(window, query) {
      var i :| 0 <= i <= |window| && OccursAt(window, query, i);
      assert whole[i + skip..i + skip + |query|] == window[i..i + |query|];
      assert OccursAt(whole, query, i + skip);
    }
  }

  lemma ContainsGrows(line: Bytes, segment: Bytes, query: Bytes)
    requires Contains(line, query)
    ensures Contains(line + segment, query)
  {
    var i :| 0 <= i <= |line| && OccursAt(line, query, i);
    assert (line + segment)[i..i + |query|] == line[i..i + |query|];
    assert OccursAt(line + segment, query, i);
  }

  lemma TailGrows(line: Bytes, segment: Bytes, query: Bytes)
    requires query != []
    ensures var candidate := Tail(line, query) + segment;
      Tail(line + segment, query) == candidate[|candidate| - Min(|candidate|, |query| - 1)..]
  {
  }

  lemma HitsAppend(lines: seq<Bytes>, line: Bytes, query: Bytes, path: string, decode: Bytes -> string)
    ensures Hits(lines + [line], query, path, decode)
         == Hits(lines, query, path, decode) + if Contains(line, query) then
           [Match(path, |lines| + 1, decode(Prefix(line)))] else []
  {
    assert (lines + [line])[..|lines|] == lines;
  }

  lemma PrefixGrows(line: Bytes, segment: Bytes)
    ensures Prefix(Prefix(line) + segment) == Prefix(line + segment)
  {
  }

  /** Finishing a line extends the first matches by at most that line. */
  lemma FirstHitsAppend(lines: seq<Bytes>, line: Bytes, query: Bytes, path: string, decode: Bytes -> string, limit: nat)
    ensures var earlier := FirstN(Hits(lines, query, path, decode), limit);
      FirstN(Hits(lines + [line], query, path, decode), limit)
      == if Contains(line, query) && |earlier| < limit then earlier + [Match(path, |lines| + 1, decode(Prefix(line)))]
        else earlier
  {
    HitsAppend(lines, line, query, path, decode);
  }

  // ---- the streaming matcher -------------------------------------------------------------

  class LineMatcher {
    const query: Bytes
    const path: string
    const decode: Bytes -> string
    const matchLimit: nat
    var matches: seq<Match>
    var lineNumber: nat
    var lineMatched: bool
    var lineOpen: bool
    var searchTail: Bytes
    var prefix: Bytes
    ghost var seen: Bytes  // every byte fed so far

    ghost predicate CurrentLine(line: Bytes)
      requires query != []
      reads this
    {
      && lineMatched == Contains(line, query)
      && lineOpen == (line != [])
      && prefix == Prefix(line)
      && (!lineMatched ==> searchTail == Tail(line, query))
    }

    /** The fields are what the whole-file search says about the bytes seen so far. */
    ghost predicate Valid()
      reads this
    {
      && query != []
      && matches == FirstN(Hits(SplitLines(seen).lines, query, path, decode), matchLimit)
      && lineNumber == |SplitLines(seen).lines| + 1
      && CurrentLine(SplitLines(seen).open)
    }

    constructor (query: Bytes, path: string, decode: Bytes -> string, matchLimit: nat)
      requires query != []
      ensures this.query == query && this.path == path && this.decode == decode && this.matchLimit == matchLimit
      ensures Valid() && seen == []
    {
      this.query, this.path, this.decode, this.matchLimit := query, path, decode, matchLimit;
      matches, lineNumber, lineMatched, lineOpen, searchTail, prefix := [], 1, false, false, [], [];
      seen := [];
    }

    method AppendPrefix(segment: Bytes)
      requires |prefix| <= MAX_COMPAT_LINE_PREFIX_BYTES
      modifies `prefix
      ensures prefix == Prefix(old(prefix) + segment)
    {
      if |prefix| >= MAX_COMPAT_LINE_PREFIX_BYTES || |segment| == 0 {
        return;
      }
      var remaining := MAX_COMPAT_LINE_PREFIX_BYTES - |prefix|;
      prefix := prefix + segment[..Min(|segment|, remaining)];
    }

    /** Looks for the query in what the tail and the new segment make up. */
    method SearchSegment(segment: Bytes, ghost line: Bytes)
      requires query != [] && lineMatched == Contains(line, query) && (!lineMatched ==> searchTail == Tail(line, query))
      modifies `lineMatched, `searchTail
      ensures lineMatched == Contains(line + segment, query)
      ensures (!lineMatched ==> searchTail == Tail(line + segment, query))
    {
      if lineMatched {
        ContainsGrows(line, segment, query);
        return;
      }
      TailDecides(line, segment, query);
      TailGrows(line, segment, query);
      var candidate := if |searchTail| == 0 then segment else searchTail + segment;
      assert candidate == Tail(line, query) + segment;
      if Contains(candidate, query) { lineMatched := true; }
      var tailBytes := |query| - 1;
      searchTail := if tailBytes == 0 then [] else candidate[|candidate| - Min(|candidate|, tailBytes)..];
    }

    /** More bytes of the current line. */
    method Observe(segment: Bytes)
      requires Valid() && NEWLINE !in segment
      modifies this
      ensures Valid() && seen == old(seen) + segment
    {
      ghost var line := SplitLines(seen).open;
      SplitAppendSegment(seen, segment);
      PrefixGrows(line, segment);
      if |segment| > 0 { lineOpen := true; }
      SearchSegment(segment, line);
      AppendPrefix(segment);
      seen := seen + segment;
    }

    /** Records the current line if it matched. */
    method RecordLine(ghost lines: seq<Bytes>, ghost line: Bytes)
      requires query != [] && CurrentLine(line) && lineNumber == |lines| + 1
      requires matches == FirstN(Hits(lines, query, path, decode), matchLimit)
      modifies `matches
      ensures matches == FirstN(Hits(lines + [line], query, path, decode), matchLimit)
    {
      FirstHitsAppend(lines, line, query, path, decode, matchLimit);
      if lineMatched && |matches| < matchLimit {
        matches := matches + [Match(path, lineNumber, decode(prefix))];
      }
    }

    /** The current line ends here, with a newline or with the file. */
    method FinishLine()
      requires Valid()
      modifies this
      ensures Valid() && seen == old(seen) + [NEWLINE]
    {
      ghost var s := SplitLines(seen);
      SplitAppendNewline(seen);
      RecordLine(s.lines, s.open);
      lineNumber := lineNumber + 1;
      lineMatched, lineOpen, searchTail, prefix := false, false, [], [];
      seen := seen + [NEWLINE];
      assert SplitLines(seen) == Split(s.lines + [s.open], []);
      assert !Contains([], query);
      assert prefix == Prefix([]) && searchTail == Tail([], query);
    }

    /** At the end of the file an open line is finished too. */
    method FinishFile()
      requires Valid()
      modifies this
      ensures matches == FirstN(Hits(Lines(old(seen)), query, path, decode), matchLimit)
    {
      ghost var s := SplitLines(seen);
      if lineOpen || lineMatched || |prefix| > 0 || |searchTail| > 0 {
        if !lineOpen { EmptyLineIdle(query); }
        SplitAppendNewline(seen);
        FinishLine();
      } else {
        assert Lines(seen) == s.lines;
      }
    }

    /** One turn of the chunk loop: up to and including the next newline, or to the chunk's end. */
    method FeedLine(chunk: Bytes, start: nat) returns (next: nat)
      requires Valid() && start < |chunk|
      modifies this
      ensures Valid() && start < next <= |chunk| && seen == old(seen) + chunk[start..next]
    {
      var newline := IndexOfNewline(chunk, start);
      if newline < 0 {
        Observe(chunk[start..]);
        return |chunk|;
      }
      Observe(chunk[start..newline]);
      FinishLine();
      next := newline + 1;
      assert chunk[start..next] == chunk[start..newline] + [NEWLINE];
    }

    /** Feeds one chunk: segments between newlines are observed, newlines finish lines. */
    method Feed(chunk: Bytes)
      requires Valid()
      modifies this
      ensures Valid() && seen == old(seen) + chunk
    {
      var start := 0;
      while start < |chunk|
        invariant 0 <= start <= |chunk|
        invariant Valid() && seen == old(seen) + chunk[..start]
      {
        var next := FeedLine(chunk, start);
        SliceJoins(old(seen), chunk, start, next);
        start := next;
      }
    }
  }

  lemma SliceJoins(earlier: Bytes, chunk: Bytes, from: nat, to: nat)
    requires from <= to <= |chunk|
    ensures earlier + chunk[..from] + chunk[from..to] == earlier + chunk[..to]
  {
  }

  /** `indexOf(0x0a, start)`. */
  method IndexOfNewline(chunk: Bytes, start: nat) returns (i: int)
    requires start <= |chunk|
    ensures i < 0 ==> NEWLINE !in chunk[start..]
    ensures i >= 0 ==> start <= i < |chunk| && chunk[i] == NEWLINE && NEWLINE !in chunk[start..i]
  {
    for k := start to |chunk|
      invariant NEWLINE !in chunk[start..k]
    {
      if chunk[k] == NEWLINE { return k; }
    }
    assert chunk[start..|chunk|] == chunk[start..];
    return -1;
  }

  // ---- one file --------------------------------------------------------------------------

  datatype Delivery = Broken | Binary | Text(content: Bytes)

  predicate GoodRange(reply: RangeReply, offset: nat, fileSize: nat) {
    reply.Range? && |reply.chunk| == reply.bytes && reply.offset == offset && reply.fileSize == fileSize
  }

  /** What the reads from `offset` on deliver, whatever the sizes of the answers. */
  function Delivered(reader: Reader, fileSize: nat, offset: nat): Delivery
    decreases fileSize - offset
  {
    if offset >= fileSize then Text([])
    else
      var reply := reader(offset, Min(COMPAT_SEARCH_CHUNK_BYTES, fileSize - offset));
      if reply.Range? && 0 in reply.chunk then Binary
      else if !GoodRange(reply, offset, fileSize) || |reply.chunk| == 0
        || (reply.eof && offset + |reply.chunk| < fileSize) then Broken
      else After(reply.chunk, Delivered(reader, fileSize, offset + |reply.chunk|))
  }

  datatype FileResult = FileResult(binary: bool, matches: seq<Match>)

  function FileOutcome(delivery: Delivery, query: Bytes, path: string, decode: Bytes -> string,
                       matchLimit: nat): Result<FileResult, Error> {
    match delivery
    case Broken => Failure(PreconditionFailed)
    case Binary => Success(FileResult(true, []))
    case Text(content) => Success(FileResult(false, FirstN(Hits(Lines(content), query, path, decode), matchLimit)))
  }

  /** One range of the file, checked; `stop` is the outcome when there is nothing to go on with. */
  method ReadRange(reader: Reader, fileSize: nat, offset: nat) returns (chunk: Bytes, eof: bool,
                                                                        stop: Option<Result<FileResult, Error>>)
    requires offset < fileSize
    ensures var delivered := Delivered(reader, fileSize, offset);
      match stop
      case Some(outcome) =>
        outcome == (if delivered.Binary? then Success(FileResult(true, [])) else Failure(PreconditionFailed))
          && !delivered.Text?
      case None =>
        chunk != [] && delivered == if eof && offset + |chunk| < fileSize then Broken
          else After(chunk, Delivered(reader, fileSize, offset + |chunk|))
  {
    var reply := reader(offset, Min(COMPAT_SEARCH_CHUNK_BYTES, fileSize - offset));
    if reply.Unreadable? {
      return [], false, Some(Failure(PreconditionFailed));
    }
    chunk, eof, stop := reply.chunk, reply.eof, None;
    if |chunk| != reply.bytes || reply.offset != offset || reply.fileSize != fileSize || 0 in chunk {
      if 0 in chunk {
        return chunk, eof, Some(Success(FileResult(true, [])));
      }
      return chunk, eof, Some(Failure(PreconditionFailed));
    }
    if |chunk| == 0 {
      return chunk, eof, Some(Failure(PreconditionFailed));
    }
  }

  /** The loop over the ranges of the file. */
  method FeedFile(matcher: LineMatcher, fileSize: nat, reader: Reader) returns (stop: Option<Result<FileResult, Error>>)
    requires matcher.Valid() && matcher.seen == []
    modifies matcher
    ensures var delivered := Delivered(reader, fileSize, 0);
      match stop
      case Some(outcome) =>
        outcome == (if delivered.Binary? then Success(FileResult(true, [])) else Failure(PreconditionFailed))
          && !delivered.Text?
      case None => matcher.Valid() && delivered == Text(matcher.seen)
  {
    var offset := 0;
    assert After([], Delivered(reader, fileSize, 0)) == Delivered(reader, fileSize, 0);
    while offset < fileSize
      invariant matcher.Valid()
      invariant Delivered(reader, fileSize, 0) == After(matcher.seen, Delivered(reader, fileSize, offset))
      decreases fileSize - offset
    {
      var chunk, eof, ended := ReadRange(reader, fileSize, offset);
      if ended.Some? {
        return ended;
      }
      ghost var seen := matcher.seen;
      matcher.Feed(chunk);
      offset := offset + |chunk|;
      if eof && offset < fileSize {
        return Some(Failure(PreconditionFailed));
      }
      AfterAfter(seen, chunk, Delivered(reader, fileSize, offset));
    }
    assert matcher.seen + [] == matcher.seen;
    return None;
  }

  method CompatibilityFileMatches(path: string, fileSize: nat, reader: Reader, query: Bytes, decode: Bytes -> string,
                                  matchLimit: nat)
    returns (r: Result<FileResult, Error>)
    requires query != []
    ensures r == FileOutcome(Delivered(reader, fileSize, 0), query, path, decode, matchLimit)
  {
    var matcher := new LineMatcher(query, path, decode, matchLimit);
    var stop := FeedFile(matcher, fileSize, reader);
    if stop.Some? {
      return stop.value;
    }
    matcher.FinishFile();
    return Success(FileResult(false, matcher.matches));
  }

  function After(earlier: Bytes, delivery: Delivery): Delivery {
    if delivery.Text? then Text(earlier + delivery.content) else delivery
  }

  lemma AfterAfter(earlier: Bytes, chunk: Bytes, delivery: Delivery)
    ensures After(earlier + chunk, delivery) == After(earlier, After(chunk, delivery))
  {
    if delivery.Text? { assert earlier + (chunk + delivery.content) == (earlier + chunk) + delivery.content; }
  }

  lemma EmptyLineIdle(query: Bytes)
    requires query != []
    ensures !Contains([], query)
  {
  }

  // ---- every chunking agrees with the whole file -----------------------------------------

  /** A reader of a file that does not change: ranges of any positive size, truthfully described. */
  ghost predicate Faithful(reader: Reader, content: Bytes) {
    forall o: nat, n: nat :: o < |content| && n > 0 ==>
      var reply := reader(o, n);
      && GoodRange(reply, o, |content|)
      && 0 < |reply.chunk| <= Min(n, |content| - o)
      && reply.chunk == content[o..o + |reply.chunk|]
      && (reply.eof <==> o + |reply.chunk| == |content|)
  }

  lemma {:induction false} FaithfulDelivery(reader: Reader, content: Bytes, offset: nat)
    requires Faithful(reader, content) && offset <= |content|
    ensures Delivered(reader, |content|, offset) == if 0 in content[offset..] then Binary else Text(content[offset..])
    decreases |content| - offset
  {
    if offset < |content| {
      var reply := reader(offset, Min(COMPAT_SEARCH_CHUNK_BYTES, |content| - offset));
      var next := offset + |reply.chunk|;
      FaithfulDelivery(reader, content, next);
      assert content[offset..] == reply.chunk + content[next..];
    }
  }

  /** However the file is cut into ranges, the file is called binary exactly when it has a zero
      byte, and otherwise the result is the first matching lines of the whole text. */
  lemma StreamingRefinesWholeFile(reader: Reader, content: Bytes, query: Bytes, path: string, decode: Bytes -> string,
                                  matchLimit: nat)
    requires Faithful(reader, content) && query != []
    ensures FileOutcome(Delivered(reader, |content|, 0), query, path, decode, matchLimit)
         == Success(if 0 in content then FileResult(true, [])
                    else FileResult(false, FirstN(Hits(Lines(content), query, path, decode), matchLimit)))
  {
    FaithfulDelivery(reader, content, 0);
    assert content[0..] == content;
  }

  /** A line appears among the hits exactly when it contains the query, under its own number. */
  lemma {:induction false} HitsAreMatchingLines(lines: seq<Bytes>, query: Bytes, path: string, decode: Bytes -> string,
                                                i: nat)
    requires i < |lines|
    ensures Contains(lines[i], query)
      <==> Match(path, i + 1, decode(Prefix(lines[i]))) in Hits(lines, query, path, decode)
    ensures forall m :: m in Hits(lines, query, path, decode) ==> 1 <= m.line <= |lines|
    decreases |lines|
  {
    var n := |lines| - 1;
    if i < n {
      HitsAreMatchingLines(lines[..n], query, path, decode, i);
      assert lines[..n][i] == lines[i];
    } else if n > 0 {
      HitsAreMatchingLines(lines[..n], query, path, decode, 0);
    }
  }

  /** Joining the lines with newlines gives the text back, so no byte is lost or reordered. */
  function Join(s: Split): Bytes
    decreases |s.lines|
  {
    if s.lines == [] then s.open
    else
      var n := |s.lines| - 1;
      Join(Split(s.lines[..n], s.lines[n])) + [NEWLINE] + s.open
  }

  lemma {:induction false} SplitJoins(text: Bytes)
    ensures Join(SplitLines(text)) == text
    ensures NEWLINE !in SplitLines(text).open && forall l :: l in SplitLines(text).lines ==> NEWLINE !in l
    decreases |text|
  {
    if text != [] {
      var n := |text| - 1;
      var s := SplitLines(text[..n]);
      SplitJoins(text[..n]);
      assert text == text[..n] + [text[n]];
      if text[n] == NEWLINE {
        JoinLine(s);
      } else {
        JoinByte(s, text[n]);
      }
    }
  }

  lemma JoinLine(s: Split)
    ensures Join(Split(s.lines + [s.open], [])) == Join(s) + [NEWLINE]
  {
    var lines := s.lines + [s.open];
    assert lines[..|s.lines|] == s.lines;
  }

  lemma JoinByte(s: Split, b: byte)
    ensures Join(Split(s.lines, s.open + [b])) == Join(s) + [b]
  {
    if s.lines != [] {
      var n := |s.lines| - 1;
      var before := Join(Split(s.lines[..n], s.lines[n])) + [NEWLINE];
      assert before + (s.open + [b]) == before + s.open + [b];
    }
  }
}
