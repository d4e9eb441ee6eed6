/**
 The parsers of `git diff --name-status -z` and `git diff --numstat -z`.

 Bytes are characters; a path is any text without NUL.
 */
module ChangeParse {
  import opened Basics
  import Decimal

  const NUL: char := '\0'
  const TAB: char := '\t'

  datatype ParseError = IndexError | ValueError

  /** One changed file, as both outputs describe it. No count means a binary file. */
  datatype Change = Change(status: string, path: string, previous: Option<string>, additions: Option<nat>, deletions: Option<nat>)

  // ---- Splitting ------------------------------------------------------------------------

  function Split(s: string, c: char): (r: seq<string>)
    ensures r != []
  {
    if s == "" then [""]
    else
      var rest := Split(s[1..], c);
      if s[0] == c then [""] + rest else [[s[0]] + rest[0]] + rest[1..]
  }

  lemma {:induction false} SplitAfter(x: string, c: char, y: string)
    requires c !in x
    ensures Split(x + [c] + y, c) == [x] + Split(y, c)
  {
    var s := x + [c] + y;
    if x == "" {
      assert s[1..] == y;
    } else {
      assert s[1..] == x[1..] + [c] + y;
      SplitAfter(x[1..], c, y);
      assert [x[0]] + x[1..] == x;
    }
  }

  /** The text of some tokens, each ended by NUL. */
  function Ended(tokens: seq<string>): string {
    if tokens == [] then "" else tokens[0] + [NUL] + Ended(tokens[1..])
  }

  predicate NoNul(tokens: seq<string>) { forall t :: t in tokens ==> NUL !in t }

  lemma {:induction false} SplitEnded(tokens: seq<string>)
    requires NoNul(tokens)
    ensures Split(Ended(tokens), NUL) == tokens + [""]
  {
    if tokens != [] {
      assert tokens[0] in tokens && forall t :: t in tokens[1..] ==> t in tokens;
      SplitAfter(tokens[0], NUL, Ended(tokens[1..]));
      SplitEnded(tokens[1..]);
    }
  }

  // ---- Name and status --------------------------------------------------------------------

  datatype Entry = Entry(status: string, path: string, previous: Option<string>)

  predicate Moves(status: string) { status != "" && (status[0] == 'R' || status[0] == 'C') }

  /** What the rest of the tokens says; the source indexes past the end of a truncated list. */
  function ReadEntries(tokens: seq<string>): Result<seq<Entry>, ParseError> {
    if tokens == [] then Ok([])
    else
      var size := if Moves(tokens[0]) then 3 else 2;
      if |tokens| < size then Err(IndexError)
      else
        var entry := if size == 3 then Entry(tokens[0], tokens[2], Some(tokens[1])) else Entry(tokens[0], tokens[1], None);
        match ReadEntries(tokens[size..])
        case Err(e) => Err(e)
        case Ok(rest) => Ok([entry] + rest)
  }

  predicate Present(t: string) { t != "" }

  function NonEmpty(raw: string): seq<string> { Filter(Present, Split(raw, NUL)) }

  /** The parser's loop: `parsed` grows while the index walks the tokens. */
  method ParseNameStatus(raw: string) returns (r: Result<seq<Entry>, ParseError>)
    ensures r == ReadEntries(NonEmpty(raw))
  {
    var tokens := NonEmpty(raw);
    var parsed: seq<Entry> := [];
    var index := 0;
    assert tokens[0..] == tokens && forall rest: seq<Entry> :: parsed + rest == rest;
    while index < |tokens|
      invariant 0 <= index <= |tokens|
      invariant ReadEntries(tokens) == match ReadEntries(tokens[index..]) case Err(e) => Err(e) case Ok(rest) => Ok(parsed + rest)
    {
      ghost var at, before := index, parsed;
      var status := tokens[index];
      index := index + 1;
      if index >= |tokens| { return Err(IndexError); }
      var path, previous := tokens[index], None;
      index := index + 1;
      if Moves(status) {
        if index >= |tokens| { return Err(IndexError); }
        previous := Some(path);
        path := tokens[index];
        index := index + 1;
      }
      parsed := parsed + [Entry(status, path, previous)];
      assert tokens[at..][index - at..] == tokens[index..];
      assert forall rest :: before + ([Entry(status, path, previous)] + rest) == parsed + rest;
    }
    assert tokens[index..] == [] && parsed + [] == parsed;
    return Ok(parsed);
  }

  function EntryTokens(e: Entry): seq<string> {
    if e.previous.Some? then [e.status, e.previous.value, e.path] else [e.status, e.path]
  }

  function AllTokens(entries: seq<Entry>): seq<string> {
    if entries == [] then [] else EntryTokens(entries[0]) + AllTokens(entries[1..])
  }

  predicate EntryFormed(e: Entry) { Moves(e.status) <==> e.previous.Some? }

  predicate EntriesFormed(entries: seq<Entry>) { forall e :: e in entries ==> EntryFormed(e) }

  lemma OneEntryIsRead(e: Entry, more: seq<string>)
    requires EntryFormed(e) && ReadEntries(more).Ok?
    ensures ReadEntries(EntryTokens(e) + more) == Ok([e] + ReadEntries(more).value)
  {
    var tokens := EntryTokens(e) + more;
    assert tokens[0] == e.status && tokens[|EntryTokens(e)|..] == more;
  }

  lemma {:induction false} ReadingUndoesPrinting(entries: seq<Entry>)
    requires EntriesFormed(entries)
    ensures ReadEntries(AllTokens(entries)) == Ok(entries)
  {
    if entries != [] {
      assert entries[0] in entries && forall e :: e in entries[1..] ==> e in entries;
      ReadingUndoesPrinting(entries[1..]);
      OneEntryIsRead(entries[0], AllTokens(entries[1..]));
      assert entries == [entries[0]] + entries[1..];
    }
  }

  /** The other way round: the parser accepts nothing but printed entries. */
  lemma {:induction false} OnlyPrintedIsRead(tokens: seq<string>)
    requires ReadEntries(tokens).Ok?
    ensures AllTokens(ReadEntries(tokens).value) == tokens && EntriesFormed(ReadEntries(tokens).value)
  {
    if tokens != [] {
      var size := if Moves(tokens[0]) then 3 else 2;
      OnlyPrintedIsRead(tokens[size..]);
      var entries := ReadEntries(tokens).value;
      assert entries[1..] == ReadEntries(tokens[size..]).value;
      assert EntryTokens(entries[0]) == tokens[..size];
      assert tokens == tokens[..size] + tokens[size..];
    }
  }

  // ---- Line counts ------------------------------------------------------------------------

  datatype Counts = Counts(additions: Option<nat>, deletions: Option<nat>)

  function FirstTab(s: string): (r: Option<nat>)
    ensures r.Some? ==> r.value < |s| && s[r.value] == TAB && TAB !in s[..r.value]
  {
    if s == "" then None
    else if s[0] == TAB then Some(0)
    else
      match FirstTab(s[1..])
      case None => None
      case Some(k) =>
        assert s[..k + 1] == [s[0]] + s[1..][..k];
        Some(k + 1)
  }

  lemma {:induction false} FirstTabAfter(x: string, y: string)
    requires TAB !in x
    ensures FirstTab(x + [TAB] + y) == Some(|x|)
  {
    if x != "" {
      assert (x + [TAB] + y)[1..] == x[1..] + [TAB] + y;
      FirstTabAfter(x[1..], y);
    }
  }

  datatype Fields = Fields(additions: string, deletions: string, path: string)

  /** Splitting at the first two tabs only: the path keeps its own tabs. */
  function Columns(token: string): Option<Fields> {
    match FirstTab(token)
    case None => None
    case Some(a) =>
      var rest := token[a + 1..];
      match FirstTab(rest)
      case None => None
      case Some(d) => Some(Fields(token[..a], rest[..d], rest[d + 1..]))
  }

  function ReadCount(s: string): Result<Option<nat>, ParseError> {
    if s == "-" then Ok(None)
    else
      match Decimal.Read(s)
      case None => Err(ValueError)
      case Some(n) => Ok(Some(n))
  }

  function ReadCounts(f: Fields): Result<Counts, ParseError> {
    match (ReadCount(f.additions), ReadCount(f.deletions))
    case (Ok(a), Ok(d)) => Ok(Counts(a, d))
    case _ => Err(ValueError)
  }

  /** What the rest of the tokens adds to the dictionary. */
  function ReadStats(tokens: seq<string>, stats: map<string, Counts>): Result<map<string, Counts>, ParseError> {
    if tokens == [] then Ok(stats)
    else if Columns(tokens[0]).None? then ReadStats(tokens[1..], stats)
    else
      var fields := Columns(tokens[0]).value;
      if fields.path == "" && |tokens| < 3 then Ok(stats)
      else
        match ReadCounts(fields)
        case Err(e) => Err(e)
        case Ok(counts) =>
          if fields.path != "" then ReadStats(tokens[1..], stats[fields.path := counts])
          else ReadStats(tokens[3..], stats[tokens[2] := counts])
  }

  method ParseNumstat(raw: string) returns (r: Result<map<string, Counts>, ParseError>)
    ensures r == ReadStats(Split(raw, NUL), map[])
  {
    var tokens := Split(raw, NUL);
    var stats: map<string, Counts> := map[];
    var index := 0;
    while index < |tokens|
      invariant 0 <= index <= |tokens|
      invariant ReadStats(tokens, map[]) == ReadStats(tokens[index..], stats)
    {
      ghost var at := index;
      var token := tokens[index];
      index := index + 1;
      assert tokens[at..][1..] == tokens[index..];
      if token == "" || Columns(token).None? { continue; }
      var fields := Columns(token).value;
      var path := fields.path;
      if path == "" {
        if index + 1 >= |tokens| { break; }
        index := index + 1;
        path := tokens[index];
        index := index + 1;
        assert tokens[at..][3..] == tokens[index..];
      }
      var counts := ReadCounts(fields);
      if counts.Err? { return Err(counts.error); }
      stats := stats[path := counts.value];
    }
    return Ok(stats);
  }

  function PrintCount(n: Option<nat>): string { if n.Some? then Decimal.Print(n.value) else "-" }

  function StatTokens(c: Change): seq<string> {
    var head := PrintCount(c.additions) + [TAB] + PrintCount(c.deletions) + [TAB];
    if c.previous.Some? then [head, c.previous.value, c.path] else [head + c.path]
  }

  function AllStatTokens(changes: seq<Change>): seq<string> {
    if changes == [] then [] else StatTokens(changes[0]) + AllStatTokens(changes[1..])
  }

  /** The dictionary the changes describe: the last one wins for a path. */
  function StatsOf(changes: seq<Change>, stats: map<string, Counts>): map<string, Counts> {
    if changes == [] then stats
    else StatsOf(changes[1..], stats[changes[0].path := Counts(changes[0].additions, changes[0].deletions)])
  }

  lemma CountRoundTrip(n: Option<nat>)
    ensures ReadCount(PrintCount(n)) == Ok(n) && TAB !in PrintCount(n)
  {
    if n.Some? {
      Decimal.ReadPrint(n.value);
    }
  }

  lemma ColumnsRoundTrip(c: Change, path: string)
    ensures var f := Columns(PrintCount(c.additions) + [TAB] + PrintCount(c.deletions) + [TAB] + path);
            f == Some(Fields(PrintCount(c.additions), PrintCount(c.deletions), path))
            && ReadCounts(f.value) == Ok(Counts(c.additions, c.deletions))
  {
    var a, d := PrintCount(c.additions), PrintCount(c.deletions);
    CountRoundTrip(c.additions);
    CountRoundTrip(c.deletions);
    var token := a + [TAB] + d + [TAB] + path;
    assert token == a + [TAB] + (d + [TAB] + path);
    FirstTabAfter(a, d + [TAB] + path);
    assert token[..|a|] == a && token[|a| + 1..] == d + [TAB] + path;
    FirstTabAfter(d, path);
    assert (d + [TAB] + path)[..|d|] == d && (d + [TAB] + path)[|d| + 1..] == path;
  }

  lemma OneStatIsRead(c: Change, more: seq<string>, stats: map<string, Counts>)
    requires c.path != ""
    ensures ReadStats(StatTokens(c) + more, stats) == ReadStats(more, stats[c.path := Counts(c.additions, c.deletions)])
  {
    var tokens := StatTokens(c) + more;
    var head := PrintCount(c.additions) + [TAB] + PrintCount(c.deletions) + [TAB];
    ColumnsRoundTrip(c, if c.previous.Some? then "" else c.path);
    assert head + "" == head;
    assert tokens[0] == StatTokens(c)[0] && tokens[|StatTokens(c)|..] == more;
    assert c.previous.Some? ==> tokens[2] == c.path;
  }

  lemma {:induction false} ReadingUndoesPrintingStats(changes: seq<Change>, rest: seq<string>, stats: map<string, Counts>)
    requires forall c :: c in changes ==> c.path != ""
    ensures ReadStats(AllStatTokens(changes) + rest, stats) == ReadStats(rest, StatsOf(changes, stats))
    decreases |changes|
  {
    var tokens := AllStatTokens(changes) + rest;
    if changes == [] {
      assert tokens == rest;
    } else {
      var c := changes[0];
      assert c in changes && forall x :: x in changes[1..] ==> x in changes;
      assert tokens == StatTokens(c) + (AllStatTokens(changes[1..]) + rest);
      OneStatIsRead(c, AllStatTokens(changes[1..]) + rest, stats);
      ReadingUndoesPrintingStats(changes[1..], rest, stats[c.path := Counts(c.additions, c.deletions)]);
    }
  }

  // ---- Both together -----------------------------------------------------------------------

  function EntryOf(c: Change): Entry { Entry(c.status, c.path, c.previous) }

  function EntriesOf(changes: seq<Change>): (r: seq<Entry>)
    ensures |r| == |changes| && forall i :: 0 <= i < |r| ==> r[i] == EntryOf(changes[i])
  {
    seq(|changes|, i requires 0 <= i < |changes| => EntryOf(changes[i]))
  }

  function PrintNameStatus(changes: seq<Change>): string { Ended(AllTokens(EntriesOf(changes))) }

  function PrintNumstat(changes: seq<Change>): string { Ended(AllStatTokens(changes)) }

  function WithCounts(e: Entry, stats: map<string, Counts>): Change {
    var counts := if e.path in stats then stats[e.path] else Counts(None, None);
    Change(e.status, e.path, e.previous, counts.additions, counts.deletions)
  }

  method ListChanges(rawStatus: string, rawStats: string) returns (r: Result<seq<Change>, ParseError>)
    ensures r == ChangesIn(rawStatus, rawStats)
  {
    var stats := ParseNumstat(rawStats);
    if stats.Err? { return Err(stats.error); }
    var entries := ParseNameStatus(rawStatus);
    if entries.Err? { return Err(entries.error); }
    return Ok(seq(|entries.value|, i requires 0 <= i < |entries.value| => WithCounts(entries.value[i], stats.value)));
  }

  function ChangesIn(rawStatus: string, rawStats: string): Result<seq<Change>, ParseError> {
    match ReadStats(Split(rawStats, NUL), map[])
    case Err(e) => Err(e)
    case Ok(stats) =>
      match ReadEntries(NonEmpty(rawStatus))
      case Err(e) => Err(e)
      case Ok(entries) => Ok(seq(|entries|, i requires 0 <= i < |entries| => WithCounts(entries[i], stats)))
  }

  ghost predicate Formed(c: Change) {
    && c.status != "" && NUL !in c.status && c.path != "" && NUL !in c.path
    && (Moves(c.status) <==> c.previous.Some?)
    && (c.previous.Some? ==> c.previous.value != "" && NUL !in c.previous.value)
  }

  ghost predicate OnePerPath(changes: seq<Change>) {
    forall i, j :: 0 <= i < j < |changes| ==> changes[i].path != changes[j].path
  }

  lemma OneEntryIsFormed(c: Change)
    requires Formed(c)
    ensures EntryFormed(EntryOf(c)) && forall t :: t in EntryTokens(EntryOf(c)) ==> NUL !in t && t != ""
  {
  }

  lemma {:induction false} StatusTokensFormed(changes: seq<Change>)
    requires forall c :: c in changes ==> Formed(c)
    ensures EntriesFormed(EntriesOf(changes)) && NoNul(AllTokens(EntriesOf(changes)))
    ensures forall t :: t in AllTokens(EntriesOf(changes)) ==> t != ""
  {
    if changes != [] {
      assert changes[0] in changes && forall c :: c in changes[1..] ==> c in changes;
      StatusTokensFormed(changes[1..]);
      var entries := EntriesOf(changes);
      assert entries[1..] == EntriesOf(changes[1..]);
      assert AllTokens(entries) == EntryTokens(entries[0]) + AllTokens(entries[1..]);
      OneEntryIsFormed(changes[0]);
      forall e | e in entries ensures EntryFormed(e) {
        assert e == entries[0] || e in entries[1..];
      }
    }
  }

  lemma {:induction false} StatTokensFormed(changes: seq<Change>)
    requires forall c :: c in changes ==> Formed(c)
    ensures NoNul(AllStatTokens(changes))
  {
    if changes != [] {
      assert changes[0] in changes && forall c :: c in changes[1..] ==> c in changes;
      StatTokensFormed(changes[1..]);
    }
  }

  lemma {:induction false} FilterAll(s: seq<string>)
    requires forall t :: t in s ==> t != ""
    ensures Filter(Present, s + [""]) == s
    ensures Filter(Present, s) == s
  {
    if s != [] {
      assert s == Front(s) + [Last(s)];
      assert forall t :: t in Front(s) ==> t in s;
      FilterAll(Front(s));
      assert Last(s) in s && Present(Last(s));
    }
    assert Front(s + [""]) == s && Last(s + [""]) == "";
  }

  lemma {:induction false} StatsLookup(changes: seq<Change>, stats: map<string, Counts>, path: string)
    requires OnePerPath(changes)
    ensures forall i :: 0 <= i < |changes| && changes[i].path == path ==>
      path in StatsOf(changes, stats) && StatsOf(changes, stats)[path] == Counts(changes[i].additions, changes[i].deletions)
    ensures (forall c :: c in changes ==> c.path != path) ==>
      (path in StatsOf(changes, stats) <==> path in stats) && (path in stats ==> StatsOf(changes, stats)[path] == stats[path])
    decreases |changes|
  {
    if changes != [] {
      var c, rest := changes[0], changes[1..];
      StatsLookup(rest, stats[c.path := Counts(c.additions, c.deletions)], path);
      assert c in changes && forall x :: x in rest ==> x in changes;
      if c.path == path {
        assert forall x :: x in rest ==> x.path != path;
      }
    }
  }

  /**
   Parsing both outputs gives back exactly the changes that were printed: renames and
   copies with their previous paths, binary files, and paths with tabs included.
   */
  lemma ChangesRoundTrip(changes: seq<Change>)
    requires OnePerPath(changes) && forall c :: c in changes ==> Formed(c)
    ensures ChangesIn(PrintNameStatus(changes), PrintNumstat(changes)) == Ok(changes)
  {
    var entries := EntriesOf(changes);
    StatusTokensFormed(changes);
    SplitEnded(AllTokens(entries));
    FilterAll(AllTokens(entries));
    ReadingUndoesPrinting(entries);
    StatTokensFormed(changes);
    SplitEnded(AllStatTokens(changes));
    ReadingUndoesPrintingStats(changes, [""], map[]);
    var stats := StatsOf(changes, map[]);
    assert ReadStats([""], stats) == Ok(stats) by { assert [""][1..] == []; }
    forall i | 0 <= i < |changes| ensures WithCounts(entries[i], stats) == changes[i] {
      StatsLookup(changes, map[], changes[i].path);
    }
    assert seq(|entries|, i requires 0 <= i < |entries| => WithCounts(entries[i], stats)) == changes;
  }
}
