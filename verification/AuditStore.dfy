/**
 The audit log of the egress proxy over its three backends: per-run deques in memory, a
 table trimmed per run and in total, and one stream for all runs, trimmed in total and
 read back page by page.

 Histories, tables and streams are written newest first, the order in which the queries
 walk them; what `List` returns is reversed, oldest first.
 */
module AuditStore {
  import opened Basics

  datatype Event = Event(run: string, body: string)

  datatype Backend = Memory | Sqlite | Redis

  /** The newest `n` elements. */
  function Newest<T>(s: seq<T>, n: nat): (r: seq<T>)
    ensures r <= s && |r| == Least(n, |s|)
  {
    if |s| <= n then s else s[..n]
  }

  function Least(a: nat, b: nat): nat { if a <= b then a else b }

  function OfRun(s: seq<Event>, run: string): seq<Event> {
    if s == [] then [] else (if s[0].run == run then [s[0]] else []) + OfRun(s[1..], run)
  }

  // ---- The table ------------------------------------------------------------------------

  /** Deletes every row of the run except its newest `n`. */
  function TrimRun(s: seq<Event>, run: string, n: nat): seq<Event> {
    if s == [] then []
    else if s[0].run != run then [s[0]] + TrimRun(s[1..], run, n)
    else if n == 0 then TrimRun(s[1..], run, 0)
    else [s[0]] + TrimRun(s[1..], run, n - 1)
  }

  /** The table after one insertion and both deletions. */
  function Inserted(table: seq<Event>, e: Event, perRun: nat, total: nat): seq<Event> {
    Newest(TrimRun([e] + table, e.run, perRun), total)
  }

  function Table(history: seq<Event>, perRun: nat, total: nat): seq<Event> {
    if history == [] then [] else Inserted(Table(history[1..], perRun, total), history[0], perRun, total)
  }

  lemma {:induction false} OfRunOfPrefix(a: seq<Event>, b: seq<Event>, run: string)
    requires a <= b
    ensures OfRun(a, run) <= OfRun(b, run)
  {
    if a != [] {
      OfRunOfPrefix(a[1..], b[1..], run);
    }
  }

  lemma {:induction false} TrimmedRun(s: seq<Event>, run: string, n: nat, other: string)
    ensures OfRun(TrimRun(s, run, n), other) == if other == run then Newest(OfRun(s, run), n) else OfRun(s, other)
  {
    if s != [] {
      TrimmedRun(s[1..], run, if s[0].run == run && n > 0 then n - 1 else n, other);
    }
  }

  /** What the table keeps of a run is a newest part of its history, within the run's cap. */
  lemma {:induction false} TableIsNewest(history: seq<Event>, perRun: nat, total: nat, run: string)
    ensures OfRun(Table(history, perRun, total), run) <= Newest(OfRun(history, run), perRun)
    ensures |Table(history, perRun, total)| <= total
  {
    if history != [] {
      var e, table := history[0], Table(history[1..], perRun, total);
      TableIsNewest(history[1..], perRun, total, run);
      TrimmedRun([e] + table, e.run, perRun, run);
      OfRunOfPrefix(Inserted(table, e, perRun, total), TrimRun([e] + table, e.run, perRun), run);
    }
  }

  /** How many of the newest `k` events are of the run. */
  function HowMany(s: seq<Event>, k: nat, run: string): nat {
    if s == [] || k == 0 then 0 else (if s[0].run == run then 1 else 0) + HowMany(s[1..], k - 1, run)
  }

  lemma {:induction false} HowManyCounts(s: seq<Event>, k: nat, run: string)
    ensures HowMany(s, k, run) == |OfRun(Newest(s, k), run)|
  {
    if s != [] && k > 0 {
      HowManyCounts(s[1..], k - 1, run);
      assert Newest(s, k)[1..] == Newest(s[1..], k - 1);
    }
  }

  lemma {:induction false} HowManyOfNewest(s: seq<Event>, total: nat, k: nat, run: string)
    requires k <= total
    ensures HowMany(Newest(s, total), k, run) == HowMany(s, k, run)
  {
    if s != [] && k > 0 {
      HowManyOfNewest(s[1..], total - 1, k - 1, run);
      assert Newest(s, total)[1..] == Newest(s[1..], total - 1);
    }
  }

  lemma {:induction false} HowManyGrows(s: seq<Event>, k: nat, run: string)
    ensures HowMany(s, k, run) <= HowMany(s, k + 1, run)
  {
    if s != [] && k > 0 {
      HowManyGrows(s[1..], k - 1, run);
    }
  }

  /** Trimming one run never pushes the rows of the newest `k` out of the newest `k`. */
  lemma {:induction false} TrimKeepsNewest(s: seq<Event>, run: string, n: nat, k: nat, other: string)
    ensures HowMany(TrimRun(s, run, n), k, other) >=
              (if other == run then Least(n, HowMany(s, k, other)) else HowMany(s, k, other))
  {
    if s != [] && k > 0 {
      if s[0].run == run && n == 0 {
        TrimKeepsNewest(s[1..], run, 0, k, other);
        HowManyGrows(s[1..], k - 1, other);
      } else {
        TrimKeepsNewest(s[1..], run, if s[0].run == run then n - 1 else n, k - 1, other);
      }
    }
  }

  /** The newest `k` rows of the table hold as much of a run as the newest `k` events, up to the run's cap. */
  lemma {:induction false} TableKeepsEnough(history: seq<Event>, perRun: nat, total: nat, k: nat, run: string)
    requires k <= total
    ensures HowMany(Table(history, perRun, total), k, run) >= Least(perRun, HowMany(history, k, run))
  {
    if history != [] && k > 0 && perRun > 0 {
      var e, table := history[0], Table(history[1..], perRun, total);
      TableKeepsEnough(history[1..], perRun, total, k - 1, run);
      HowManyOfNewest(TrimRun([e] + table, e.run, perRun), total, k, run);
      TrimKeepsNewest(table, e.run, perRun - 1, k - 1, run);
      assert ([e] + table)[1..] == table;
    }
  }

  lemma NewestAgain<T>(e: T, s: seq<T>, n: nat)
    ensures Newest([e] + Newest(s, n), n) == Newest([e] + s, n)
  {
  }

  // ---- The three backends ------------------------------------------------------------------

  function InMemory(history: seq<Event>, run: string, perRun: nat): seq<Event> { Newest(OfRun(history, run), perRun) }

  lemma MemoryAppended(e: Event, older: seq<Event>, run: string, perRun: nat)
    ensures InMemory([e] + older, run, perRun) ==
              if e.run == run then Newest([e] + InMemory(older, run, perRun), perRun) else InMemory(older, run, perRun)
  {
  }

  function InTable(history: seq<Event>, run: string, perRun: nat, total: nat): seq<Event> {
    OfRun(Table(history, perRun, total), run)
  }

  function InStream(history: seq<Event>, run: string, perRun: nat, total: nat): seq<Event> {
    Newest(OfRun(Newest(history, total), run), perRun)
  }

  /**
   On every history the stream tells no more of a run than the table, and the table no
   more than memory; each is a newest part of the next, within both caps. While the total
   cap is not reached, all three agree.
   */
  lemma BackendsNest(history: seq<Event>, run: string, perRun: nat, total: nat)
    ensures var m, t, s := InMemory(history, run, perRun), InTable(history, run, perRun, total), InStream(history, run, perRun, total);
            && s <= t <= m
            && |m| <= perRun && |Table(history, perRun, total)| <= total
            && (|history| <= total ==> s == t == m)
  {
    TableIsNewest(history, perRun, total, run);
    TableKeepsEnough(history, perRun, total, total, run);
    HowManyCounts(Table(history, perRun, total), total, run);
    HowManyCounts(history, total, run);
    OfRunOfPrefix(Newest(history, total), history, run);
  }

  // ---- Reading the stream back ----------------------------------------------------------------

  function Reversed<T>(s: seq<T>): (r: seq<T>)
    ensures |r| == |s| && forall i :: 0 <= i < |s| ==> r[i] == s[|s| - 1 - i]
  {
    if s == [] then [] else Reversed(s[1..]) + [s[0]]
  }

  datatype Entry = Entry(id: nat, event: Event)

  function Events(stream: seq<Entry>): (r: seq<Event>)
    ensures |r| == |stream| && forall i :: 0 <= i < |r| ==> r[i] == stream[i].event
  {
    seq(|stream|, i requires 0 <= i < |stream| => stream[i].event)
  }

  ghost predicate Descending(stream: seq<Entry>) { forall i, j :: 0 <= i < j < |stream| ==> stream[j].id < stream[i].id }

  /** The entries of a reverse range below an exclusive cursor; all of them if there is none. */
  function Below(stream: seq<Entry>, cursor: Option<nat>): seq<Entry> {
    if cursor.None? || stream == [] || stream[0].id < cursor.value then stream else Below(stream[1..], cursor)
  }

  lemma {:induction false} BelowIsRest(stream: seq<Entry>, p: nat)
    requires Descending(stream) && p < |stream|
    ensures Below(stream, Some(stream[p].id)) == stream[p + 1..]
  {
    if p == 0 {
      if |stream| > 1 {
        assert stream[1].id < stream[0].id;
      }
    } else {
      assert stream[p].id < stream[0].id;
      BelowIsRest(stream[1..], p - 1);
    }
  }

  /** The events of one run in the stream. */
  function RunEvents(stream: seq<Entry>, run: string): seq<Event> {
    if stream == [] then []
    else (if stream[0].event.run == run then [stream[0].event] else []) + RunEvents(stream[1..], run)
  }

  lemma {:induction false} RunEventsAreOfRun(stream: seq<Entry>, run: string)
    ensures RunEvents(stream, run) == OfRun(Events(stream), run)
  {
    if stream != [] {
      RunEventsAreOfRun(stream[1..], run);
      assert Events(stream) == [stream[0].event] + Events(stream[1..]);
    }
  }

  class AuditStore {
    const backend: Backend
    const maxPerRun: nat
    const maxTotal: nat
    var events: map<string, seq<Event>>
    var table: seq<Event>
    var stream: seq<Entry>
    var nextId: nat
    ghost var history: seq<Event>

    ghost predicate Valid()
      reads this
    {
      match backend
      case Memory => forall run :: Deque(run) == InMemory(history, run, maxPerRun)
      case Sqlite => table == Table(history, maxPerRun, maxTotal)
      case Redis =>
        && Events(stream) == Newest(history, maxTotal)
        && Descending(stream) && forall i :: 0 <= i < |stream| ==> stream[i].id < nextId
    }

    function Deque(run: string): seq<Event>
      reads this
    {
      if run in events then events[run] else []
    }

    /** What each backend tells of a run. */
    ghost function Told(run: string): seq<Event>
      reads this
    {
      match backend
      case Memory => InMemory(history, run, maxPerRun)
      case Sqlite => InTable(history, run, maxPerRun, maxTotal)
      case Redis => InStream(history, run, maxPerRun, maxTotal)
    }

    constructor (backend: Backend, maxPerRun: nat, maxTotal: nat)
      ensures Valid() && history == []
      ensures this.backend == backend && this.maxPerRun == maxPerRun && this.maxTotal == maxTotal
    {
      this.backend, this.maxPerRun, this.maxTotal := backend, maxPerRun, maxTotal;
      events, table, stream, nextId, history := map[], [], [], 0, [];
    }

    method Append(e: Event)
      requires Valid()
      modifies this
      ensures Valid() && history == [e] + old(history)
    {
      history := [e] + history;
      match backend {
        case Redis => AppendStream(e);
        case Memory => AppendDeque(e);
        case Sqlite => table := Inserted(table, e, maxPerRun, maxTotal);
      }
    }

    /** An addition to the stream with an exact maximal length. */
    method AppendStream(e: Event)
      requires backend == Redis && history != [] && history[0] == e
      requires Events(stream) == Newest(history[1..], maxTotal) && Descending(stream)
      requires forall i :: 0 <= i < |stream| ==> stream[i].id < nextId
      modifies `stream, `nextId
      ensures Valid()
    {
      NewestAgain(e, history[1..], maxTotal);
      assert history == [e] + history[1..];
      assert Events([Entry(nextId, e)] + stream) == [e] + Events(stream);
      stream, nextId := Newest([Entry(nextId, e)] + stream, maxTotal), nextId + 1;
    }

    /** An addition to the run's deque of a maximal length. */
    method AppendDeque(e: Event)
      requires backend == Memory && history != [] && history[0] == e
      requires forall run :: Deque(run) == InMemory(history[1..], run, maxPerRun)
      modifies `events
      ensures Valid()
    {
      ghost var older := history[1..];
      assert history == [e] + older;
      forall run ensures InMemory(history, run, maxPerRun) == if e.run == run then Newest([e] + Deque(run), maxPerRun) else Deque(run) {
        MemoryAppended(e, older, run, maxPerRun);
      }
      events := events[e.run := Newest([e] + Deque(e.run), maxPerRun)];
    }

    /** One reverse range query of the stream. */
    method ReverseRange(cursor: Option<nat>, count: nat) returns (rows: seq<Entry>)
      ensures rows == Newest(Below(stream, cursor), count)
    {
      rows := Newest(Below(stream, cursor), count);
    }

    method List(run: string) returns (r: seq<Event>)
      requires Valid()
      ensures r == Reversed(Told(run))
    {
      match backend {
        case Redis =>
          var found := ReadStream(run);
          RunEventsAreOfRun(stream, run);
          r := Reversed(found);
        case Memory =>
          r := Reversed(Deque(run));
        case Sqlite =>
          r := Reversed(OfRun(table, run));
      }
    }

    /** `found` is what the run's events from the newest down to entry `p` come to. */
    ghost predicate Collected(run: string, found: seq<Event>, p: int)
      reads this
    {
      && 0 <= p <= |stream| && |found| <= maxPerRun
      && RunEvents(stream, run) == found + RunEvents(stream[p..], run)
    }

    /** Below the last row of a page lies what follows the page. */
    lemma NextPage(rows: seq<Entry>, p: nat)
      requires Descending(stream) && p <= |stream| && rows != [] && rows <= stream[p..]
      ensures Below(stream, Some(Last(rows).id)) == stream[p + |rows|..]
    {
      assert Last(rows) == stream[p..][|rows| - 1];
      BelowIsRest(stream, p + |rows| - 1);
    }

    lemma CollectedAll(run: string, found: seq<Event>, p: nat)
      requires Collected(run, found, p) && (|found| == maxPerRun || stream[p..] == [])
      ensures found == Newest(RunEvents(stream, run), maxPerRun)
    {
    }

    /** The paging loop: batches from a moving cursor until enough events of the run are found. */
    method ReadStream(run: string) returns (found: seq<Event>)
      requires Descending(stream)
      ensures found == Newest(RunEvents(stream, run), maxPerRun)
    {
      found := [];
      var cursor: Option<nat> := None;
      var batchSize := if 2 * maxPerRun > 1000 then 1000 else if 2 * maxPerRun > 100 then 2 * maxPerRun else 100;
      ghost var p := 0;
      assert stream[0..] == stream;
      while |found| < maxPerRun
        invariant Collected(run, found, p) && Below(stream, cursor) == stream[p..]
        decreases |stream| - p
      {
        var rows := ReverseRange(cursor, batchSize);
        if rows == [] { break; }
        var read: nat;
        found, read := ReadPage(run, rows, found, p);
        p := p + read;
        if |found| == maxPerRun || |rows| < batchSize { break; }
        cursor := Some(Last(rows).id);
        NextPage(rows, p - |rows|);
      }
      assert |found| == maxPerRun || stream[p..] == [];
      CollectedAll(run, found, p);
    }

    lemma CollectedStep(run: string, found: seq<Event>, q: nat)
      requires Collected(run, found, q) && |found| < maxPerRun && q < |stream|
      ensures Collected(run, if stream[q].event.run == run then found + [stream[q].event] else found, q + 1)
    {
    }

    /** One page: the loop over its rows, left as soon as enough events are found. */
    method ReadPage(run: string, rows: seq<Entry>, before: seq<Event>, ghost p: nat) returns (found: seq<Event>, read: nat)
      requires Collected(run, before, p) && |before| < maxPerRun && rows <= stream[p..]
      ensures read <= |rows| && Collected(run, found, p + read)
      ensures |found| < maxPerRun ==> read == |rows|
    {
      found, read := before, 0;
      while read < |rows|
        invariant read <= |rows| && Collected(run, found, p + read) && |found| < maxPerRun
      {
        CollectedStep(run, found, p + read);
        assert rows[read] == stream[p..][read];
        var event := rows[read].event;
        read := read + 1;
        if event.run == run {
          found := found + [event];
          if |found| == maxPerRun { break; }
        }
      }
    }
  }
}
