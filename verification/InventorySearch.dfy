/** `compatibilityTextSearch`: the chunked search over a whole inventory, under a byte budget and a
    cap of one hundred matches, and exactly when it may call itself exhaustive. */
module InventorySearch {
  import opened Wrappers
  import opened TextSearch

  const MAX_COMPAT_SEARCH_BYTES: nat := 64 * 1024 * 1024
  const MAX_MATCHES: nat := 100
  const MAX_QUERY: nat := 500

  /** An inventoried entry; `reader` is what reading its ranges answers during the search. */
  datatype Entry = Entry(path: string, isFile: bool, size: nat, reader: Reader)

  datatype Found = Found(matches: seq<Match>, truncated: bool)

  // ---- what an exhaustive search would find ----------------------------------------------

  predicate Searchable(e: Entry) {
    e.isFile && e.size != 0
  }

  /** The entries that are read, in order: those that still fit the byte budget. */
  function Fitting(entries: seq<Entry>, scanned: nat): seq<Entry>
    requires scanned <= MAX_COMPAT_SEARCH_BYTES
  {
    if entries == [] then []
    else
      var e := entries[0];
      if !Searchable(e) || e.size > MAX_COMPAT_SEARCH_BYTES - scanned then Fitting(entries[1..], scanned)
      else [e] + Fitting(entries[1..], scanned + e.size)
  }

  /** Every matching line of one entry; a binary or unreadable file has none. */
  function EntryHits(e: Entry, query: Bytes, decode: Bytes -> string): seq<Match> {
    match Delivered(e.reader, e.size, 0)
    case Text(content) => Hits(Lines(content), query, e.path, decode)
    case _ => []
  }

  function AllHits(entries: seq<Entry>, query: Bytes, decode: Bytes -> string): seq<Match> {
    if entries == [] then [] else EntryHits(entries[0], query, decode) + AllHits(entries[1..], query, decode)
  }

  predicate Readable(e: Entry) {
    !Delivered(e.reader, e.size, 0).Broken?
  }

  /** Every searchable entry fits the budget and can be read. */
  predicate Complete(entries: seq<Entry>, scanned: nat)
    requires scanned <= MAX_COMPAT_SEARCH_BYTES
  {
    entries == [] ||
    (var e := entries[0];
     if !Searchable(e) then Complete(entries[1..], scanned)
     else e.size <= MAX_COMPAT_SEARCH_BYTES - scanned && Readable(e) && Complete(entries[1..], scanned + e.size))
  }

  predicate Overflows(entries: seq<Entry>, query: Bytes, decode: Bytes -> string) {
    |AllHits(Fitting(entries, 0), query, decode)| > MAX_MATCHES
  }

  function TotalSize(entries: seq<Entry>): nat {
    if entries == [] then 0 else entries[0].size + TotalSize(entries[1..])
  }

  // ---- the search ------------------------------------------------------------------------

  /** The loop variables of the search. */
  datatype Progress = Progress(matches: seq<Match>, scannedBytes: nat, incomplete: bool, overflow: bool)

  /** How the loop variables stand, when the whole search has the hits `all` and the entries still to
      come have the hits `later`; `complete` and `laterComplete` say whether they can all be read. */
  predicate Accounts(p: Progress, all: seq<Match>, complete: bool, later: seq<Match>, laterComplete: bool) {
    && |p.matches| <= MAX_MATCHES
    && (if p.overflow then |all| > MAX_MATCHES && p.matches == FirstN(all, MAX_MATCHES)
        else all == p.matches + later && (complete <==> !p.incomplete && laterComplete))
  }

  ghost predicate OnTrack(p: Progress, all: seq<Match>, complete: bool, rest: seq<Entry>, query: Bytes,
                          decode: Bytes -> string) {
    && p.scannedBytes <= MAX_COMPAT_SEARCH_BYTES
    && Accounts(p, all, complete, AllHits(Fitting(rest, p.scannedBytes), query, decode), Complete(rest, p.scannedBytes))
  }

  /** One entry that is read: its hits are added, as far as they fit. */
  method ReadEntry(p: Progress, entry: Entry, query: Bytes, decode: Bytes -> string,
                   ghost all: seq<Match>, ghost complete: bool, ghost later: seq<Match>, ghost laterComplete: bool)
    returns (next: Progress)
    requires query != [] && !p.overflow && Searchable(entry)
    requires Accounts(p, all, complete, EntryHits(entry, query, decode) + later, Readable(entry) && laterComplete)
    ensures Accounts(next, all, complete, later, laterComplete) && next.scannedBytes == p.scannedBytes + entry.size
  {
    var scanned := p.scannedBytes + entry.size;
    var remaining := MAX_MATCHES - |p.matches|;
    var file := CompatibilityFileMatches(entry.path, entry.size, entry.reader, query, decode, remaining + 1);
    ghost var hits := EntryHits(entry, query, decode);
    EntryFound(entry, query, decode, remaining + 1);
    if file.Failure? {
      FoundNothing(p, all, complete, hits, later, laterComplete, Readable(entry), scanned);
      return p.(scannedBytes := scanned, incomplete := true);
    }
    if file.value.binary {
      FoundNothing(p, all, complete, hits, later, laterComplete, Readable(entry), scanned);
      return p.(scannedBytes := scanned);
    }
    FoundSome(p, all, complete, hits, later, laterComplete, scanned);
    next := Progress(p.matches + FirstN(file.value.matches, remaining), scanned, p.incomplete,
                     |file.value.matches| > remaining);
  }

  /** One entry of the inventory. */
  method SearchEntry(p: Progress, entry: Entry, query: Bytes, decode: Bytes -> string,
                     ghost all: seq<Match>, ghost complete: bool, ghost rest: seq<Entry>)
    returns (next: Progress)
    requires query != [] && !p.overflow && rest != [] && rest[0] == entry
    requires OnTrack(p, all, complete, rest, query, decode)
    ensures OnTrack(next, all, complete, rest[1..], query, decode)
  {
    if !Searchable(entry) {
      SkipStep(rest, p.scannedBytes);
      return p;
    }
    if entry.size > MAX_COMPAT_SEARCH_BYTES - p.scannedBytes {
      SkipStep(rest, p.scannedBytes);
      return p.(incomplete := true);
    }
    RestStep(rest, p.scannedBytes, query, decode);
    next := ReadEntry(p, entry, query, decode, all, complete,
                      AllHits(Fitting(rest[1..], p.scannedBytes + entry.size), query, decode),
                        Complete(rest[1..], p.scannedBytes + entry.size));
  }

  lemma FoundNothing(p: Progress, all: seq<Match>, complete: bool, hits: seq<Match>, later: seq<Match>,
                     laterComplete: bool, readable: bool, scanned: nat)
    requires !p.overflow && Accounts(p, all, complete, hits + later, readable && laterComplete) && hits == []
    ensures Accounts(p.(scannedBytes := scanned, incomplete := p.incomplete || !readable), all, complete, later,
                     laterComplete)
  {
    assert hits + later == later;
  }

  lemma FoundSome(p: Progress, all: seq<Match>, complete: bool, hits: seq<Match>, later: seq<Match>,
                  laterComplete: bool, scanned: nat)
    requires !p.overflow && Accounts(p, all, complete, hits + later, laterComplete)
    ensures var remaining := MAX_MATCHES - |p.matches|;
      var shown := FirstN(hits, remaining + 1);
      Accounts(Progress(p.matches + FirstN(shown, remaining), scanned, p.incomplete, |shown| > remaining), all,
               complete, later, laterComplete)
  {
    Merge(p.matches, hits, later);
  }

  lemma SkipStep(rest: seq<Entry>, scanned: nat)
    requires scanned <= MAX_COMPAT_SEARCH_BYTES && rest != []
    requires !Searchable(rest[0]) || rest[0].size > MAX_COMPAT_SEARCH_BYTES - scanned
    ensures Fitting(rest, scanned) == Fitting(rest[1..], scanned)
    ensures Complete(rest, scanned) <==> !Searchable(rest[0]) && Complete(rest[1..], scanned)
  {
  }

  lemma RestStep(rest: seq<Entry>, scanned: nat, query: Bytes, decode: Bytes -> string)
    requires rest != [] && Searchable(rest[0]) && rest[0].size + scanned <= MAX_COMPAT_SEARCH_BYTES
    ensures AllHits(Fitting(rest, scanned), query, decode)
         == EntryHits(rest[0], query, decode) + AllHits(Fitting(rest[1..], scanned + rest[0].size), query, decode)
    ensures Complete(rest, scanned) <==> Readable(rest[0]) && Complete(rest[1..], scanned + rest[0].size)
  {
    var fitting := Fitting(rest, scanned);
    assert fitting[0] == rest[0] && fitting[1..] == Fitting(rest[1..], scanned + rest[0].size);
  }

  /** What one file's search reports, in terms of all of the file's hits. */
  lemma EntryFound(e: Entry, query: Bytes, decode: Bytes -> string, limit: nat)
    ensures var file := FileOutcome(Delivered(e.reader, e.size, 0), query, e.path, decode, limit);
      var hits := EntryHits(e, query, decode);
      && (file.Success? <==> Readable(e))
      && (file.Failure? || file.value.binary ==> hits == [])
      && (file.Success? && !file.value.binary ==> file.value.matches == FirstN(hits, limit))
  {
  }

  /** Taking what still fits of one entry's hits, and noticing when some did not. */
  lemma Merge(earlier: seq<Match>, hits: seq<Match>, later: seq<Match>)
    requires |earlier| <= MAX_MATCHES
    ensures var remaining := MAX_MATCHES - |earlier|;
      var shown := FirstN(hits, remaining + 1);
      if |shown| > remaining then
        && |earlier + (hits + later)| > MAX_MATCHES
        && earlier + FirstN(shown, remaining) == FirstN(earlier + (hits + later), MAX_MATCHES)
      else
        && earlier + (hits + later) == (earlier + FirstN(shown, remaining)) + later
        && |earlier + FirstN(shown, remaining)| <= MAX_MATCHES
  {
    var remaining := MAX_MATCHES - |earlier|;
    if |hits| > remaining {
      assert FirstN(FirstN(hits, remaining + 1), remaining) == hits[..remaining];
      assert (earlier + (hits + later))[..MAX_MATCHES] == earlier + hits[..remaining];
    }
  }

  /** The query is valid UTF-8 text, already trimmed; `utf8` gives its bytes. */
  method CompatibilityTextSearch(entries: seq<Entry>, scanTruncated: bool, query: string, utf8: string -> Bytes,
                                 decode: Bytes -> string)
    returns (r: Result<Found, Error>, scannedBytes: nat)
    requires |utf8(query)| >= |query|
    ensures r.Failure? <==> |query| == 0 || |query| > MAX_QUERY || '\0' in query
    ensures r.Success? ==> r.value.matches == FirstN(AllHits(Fitting(entries, 0), utf8(query), decode), MAX_MATCHES)
    ensures r.Success? ==>
      (!r.value.truncated <==> !scanTruncated && Complete(entries, 0) && !Overflows(entries, utf8(query), decode))
    ensures scannedBytes <= MAX_COMPAT_SEARCH_BYTES
  {
    if |query| == 0 || |query| > MAX_QUERY || '\0' in query {
      return Failure(InvalidRequest), 0;
    }
    var queryBytes := utf8(query);
    var p := Progress([], 0, false, false);
    var i := 0;
    ghost var all, complete := AllHits(Fitting(entries, 0), queryBytes, decode), Complete(entries, 0);
    assert entries[0..] == entries;
    while i < |entries| && !p.overflow
      invariant 0 <= i <= |entries|
      invariant OnTrack(p, all, complete, entries[i..], queryBytes, decode)
      decreases |entries| - i
    {
      p := SearchEntry(p, entries[i], queryBytes, decode, all, complete, entries[i..]);
      assert entries[i..][1..] == entries[i + 1..];
      i := i + 1;
    }
    return Success(Found(p.matches, p.overflow || p.incomplete || scanTruncated)), p.scannedBytes;
  }

  // ---- what the answer means -------------------------------------------------------------

  lemma {:induction false} HitOfEntry(entries: seq<Entry>, query: Bytes, decode: Bytes -> string, m: Match)
    ensures m in AllHits(entries, query, decode) <==> exists e :: e in entries && m in EntryHits(e, query, decode)
    decreases |entries|
  {
    if entries != [] {
      HitOfEntry(entries[1..], query, decode, m);
      assert entries == [entries[0]] + entries[1..];
    }
  }

  /** What is read never exceeds the byte budget. */
  lemma {:induction false} FittingFitsBudget(entries: seq<Entry>, scanned: nat)
    requires scanned <= MAX_COMPAT_SEARCH_BYTES
    ensures scanned + TotalSize(Fitting(entries, scanned)) <= MAX_COMPAT_SEARCH_BYTES
    ensures forall e :: e in Fitting(entries, scanned) ==> e in entries && Searchable(e)
    decreases |entries|
  {
    if entries != [] {
      var e := entries[0];
      if Searchable(e) && e.size <= MAX_COMPAT_SEARCH_BYTES - scanned {
        FittingFitsBudget(entries[1..], scanned + e.size);
        assert Fitting(entries, scanned)[1..] == Fitting(entries[1..], scanned + e.size);
      } else {
        FittingFitsBudget(entries[1..], scanned);
      }
    }
  }

  lemma {:induction false} CompleteReadsAll(entries: seq<Entry>, scanned: nat)
    requires scanned <= MAX_COMPAT_SEARCH_BYTES && Complete(entries, scanned)
    ensures forall e :: e in entries && Searchable(e) ==> e in Fitting(entries, scanned) && Readable(e)
    decreases |entries|
  {
    if entries != [] {
      var e := entries[0];
      CompleteReadsAll(entries[1..], if Searchable(e) then scanned + e.size else scanned);
      assert entries == [e] + entries[1..];
    }
  }

  /** When the search is not truncated, every line of every inventoried text file that contains the
      query is among the matches, each file read from its true content. */
  lemma UntruncatedOmitsNothing(entries: seq<Entry>, query: Bytes, decode: Bytes -> string, e: Entry, content: Bytes,
                                line: nat)
    requires query != [] && Complete(entries, 0) && !Overflows(entries, query, decode)
    requires e in entries && e.isFile && e.size == |content| && Faithful(e.reader, content) && 0 !in content
    requires line < |Lines(content)| && Contains(Lines(content)[line], query)
    ensures Match(e.path, line + 1,
                  decode(Prefix(Lines(content)[line]))) in FirstN(AllHits(Fitting(entries, 0), query, decode),
                                                                  MAX_MATCHES)
  {
    var m := Match(e.path, line + 1, decode(Prefix(Lines(content)[line])));
    assert content != [];
    CompleteReadsAll(entries, 0);
    FaithfulDelivery(e.reader, content, 0);
    assert content[0..] == content;
    HitsAreMatchingLines(Lines(content), query, e.path, decode, line);
    assert m in EntryHits(e, query, decode);
    HitOfEntry(Fitting(entries, 0), query, decode, m);
  }

  lemma {:induction false} HitsAreReal(lines: seq<Bytes>, query: Bytes, path: string, decode: Bytes -> string, m: Match)
    requires m in Hits(lines, query, path, decode)
    ensures 1 <= m.line <= |lines| && m == Match(path, m.line, decode(Prefix(lines[m.line - 1])))
    ensures Contains(lines[m.line - 1], query)
    decreases |lines|
  {
    var n := |lines| - 1;
    if m in Hits(lines[..n], query, path, decode) {
      HitsAreReal(lines[..n], query, path, decode, m);
    }
  }

  ghost predicate RealMatch(e: Entry, query: Bytes, decode: Bytes -> string, m: Match) {
    var file := Delivered(e.reader, e.size, 0);
    && file.Text?
    && 1 <= m.line <= |Lines(file.content)|
    && Contains(Lines(file.content)[m.line - 1], query)
    && m == Match(e.path, m.line, decode(Prefix(Lines(file.content)[m.line - 1])))
  }

  lemma EntryHitsAreReal(e: Entry, query: Bytes, decode: Bytes -> string, m: Match)
    requires m in EntryHits(e, query, decode)
    ensures RealMatch(e, query, decode, m)
  {
    HitsAreReal(Lines(Delivered(e.reader, e.size, 0).content), query, e.path, decode, m);
  }

  /** And every match is a real line of an inventoried file, with its number and its prefix. */
  lemma MatchesAreReal(entries: seq<Entry>, query: Bytes, decode: Bytes -> string, m: Match)
    requires m in FirstN(AllHits(Fitting(entries, 0), query, decode), MAX_MATCHES)
    ensures exists e :: e in entries && Searchable(e) && RealMatch(e, query, decode, m)
  {
    HitOfEntry(Fitting(entries, 0), query, decode, m);
    FittingFitsBudget(entries, 0);
    var e :| e in Fitting(entries, 0) && m in EntryHits(e, query, decode);
    EntryHitsAreReal(e, query, decode, m);
  }
}
