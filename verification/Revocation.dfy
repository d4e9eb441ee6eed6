/**
 The store of revoked runs: a table that is purged on every access, over three backends,
 against the plain log of everything that was ever revoked; and the listener that tells
 the proxy of each revocation.
 */
module Revocation {
  import opened Basics

  /** Seconds since the epoch. */
  type Clock = t: real | 0.0 <= t witness 0.0

  datatype Entry = Entry(run: string, expiry: real)

  type Table = map<string, real>

  datatype Backend = Memory | Sqlite | Redis

  /** What the log says: some revocation of the run has not expired yet. */
  ghost predicate Revoked(log: seq<Entry>, run: string, now: Clock) {
    exists r :: r in log && r.run == run && r.expiry > now
  }

  function Purged(table: Table, now: Clock): Table { map run | run in table && table[run] > now :: table[run] }

  function Later(a: real, b: real): real { if a >= b then a else b }

  /** The table after a revocation: the larger expiry stays. */
  function Recorded(backend: Backend, table: Table, r: Entry, now: Clock): Table {
    var kept := Purged(table, now);
    match backend
    case Memory => kept[r.run := Later(r.expiry, if r.run in kept then kept[r.run] else 0.0)]
    case Sqlite => kept[r.run := if r.run in kept then Later(kept[r.run], r.expiry) else r.expiry]
    case Redis =>
      if r.expiry <= now then kept
      else if r.run in kept && kept[r.run] >= r.expiry then kept
      else kept[r.run := r.expiry]
  }

  /** From the time `since` on, the table and the log agree on every run. */
  ghost predicate Agrees(table: Table, log: seq<Entry>, since: Clock) {
    forall run, t: Clock {:trigger Revoked(log, run, t)} :: t >= since ==> (run in table && table[run] > t <==> Revoked(log, run, t))
  }

  lemma PurgeAgrees(table: Table, log: seq<Entry>, since: Clock, now: Clock)
    requires Agrees(table, log, since) && now >= since
    ensures Agrees(Purged(table, now), log, now)
  {
  }

  lemma RecordAgrees(backend: Backend, table: Table, log: seq<Entry>, since: Clock, now: Clock, r: Entry)
    requires Agrees(table, log, since) && now >= since
    ensures Agrees(Recorded(backend, table, r, now), log + [r], now)
  {
    PurgeAgrees(table, log, since, now);
    var after := Recorded(backend, table, r, now);
    forall run, t: Clock | t >= now
      ensures run in after && after[run] > t <==> Revoked(log + [r], run, t)
    {
      LogGrows(log, r, run, t);
      assert run in Purged(table, now) && Purged(table, now)[run] > t <==> Revoked(log, run, t);
    }
  }

  /** A further revocation adds its own span and never shortens an earlier one. */
  lemma LogGrows(log: seq<Entry>, r: Entry, run: string, t: Clock)
    ensures Revoked(log + [r], run, t) <==> Revoked(log, run, t) || (r.run == run && r.expiry > t)
  {
  }

  /**
   If the clock goes back after a purge, an answer is wrong exactly for a run that was
   revoked then and no longer at the time of the purge.
   */
  lemma GoingBackForgetsIff(table: Table, log: seq<Entry>, purgedAt: Clock, t: Clock, run: string)
    requires Agrees(table, log, purgedAt) && t < purgedAt
    ensures var kept := Purged(table, purgedAt);
            (run in kept && kept[run] > t) != Revoked(log, run, t) <==> Revoked(log, run, t) && !Revoked(log, run, purgedAt)
  {
    if Revoked(log, run, purgedAt) {
      var x :| x in log && x.run == run && x.expiry > purgedAt;
      assert x.expiry > t;
    }
  }

  class AuthorityRevocationStore {
    const backend: Backend
    var table: Table
    ghost var log: seq<Entry>
    ghost var clock: Clock

    ghost predicate Valid()
      reads this
    {
      Agrees(table, log, clock)
    }

    constructor (backend: Backend)
      ensures Valid() && log == [] && clock == 0.0 && this.backend == backend
    {
      this.backend, table, log, clock := backend, map[], [], 0.0;
    }

    method Revoke(run: string, expiry: real, now: Clock)
      requires Valid() && now >= clock
      modifies this
      ensures Valid() && log == old(log) + [Entry(run, expiry)] && clock == now
    {
      ghost var r := Entry(run, expiry);
      RecordAgrees(backend, table, log, clock, now, r);
      table := Purged(table, now);
      match backend {
        case Redis =>
          if expiry > now && (run !in table || table[run] < expiry) {
            table := table[run := expiry];
          }
        case Memory =>
          table := table[run := Later(expiry, if run in table then table[run] else 0.0)];
        case Sqlite =>
          table := table[run := if run in table then Later(table[run], expiry) else expiry];
      }
      log, clock := log + [r], now;
    }

    /** On every backend the answer is the log's. */
    method IsRevoked(run: string, now: Clock) returns (revoked: bool)
      requires Valid() && now >= clock
      modifies this
      ensures Valid() && log == old(log) && clock == now
      ensures revoked <==> Revoked(log, run, now)
    {
      PurgeAgrees(table, log, clock, now);
      table := Purged(table, now);
      clock := now;
      revoked := match backend case Memory => run in table case _ => run in table && table[run] > now;
    }
  }

  // ---- The listener -----------------------------------------------------------------------

  /** One round: a published run, the active ones, and the callbacks that do not raise. */
  datatype Round = Round(message: Option<string>, messageTaken: bool, active: set<string>, taken: set<string>)

  predicate Told(observed: set<string>, r: Round, run: string) {
    run !in observed && ((r.message == Some(run) && r.messageTaken) || (run in r.active && run in r.taken))
  }

  /** The runs still active that have been told of, now or before. */
  function Observed(observed: set<string>, r: Round): set<string> {
    set run | run in r.active && (run in observed || Told(observed, r, run))
  }

  class Listener {
    var observed: set<string>

    constructor ()
      ensures observed == {}
    {
      observed := {};
    }

    method Poll(r: Round) returns (told: multiset<string>)
      modifies this
      ensures observed == Observed(old(observed), r)
      ensures forall run :: told[run] == if Told(old(observed), r, run) then 1 else 0
    {
      told := multiset{};
      if r.message.Some? {
        var run := r.message.value;
        if run !in observed && r.messageTaken {
          told := told + multiset{run};
          observed := observed + {run};
        }
      }
      ghost var known := observed;
      observed := observed * r.active;
      var todo := r.active - observed;
      ghost var seen := observed;
      while todo != {}
        invariant todo <= r.active && todo !! seen
        invariant seen <= observed <= r.active
        invariant forall run :: run in observed <==> run in seen || (run in r.active - seen - todo && run in r.taken)
        invariant forall run :: told[run] <= 1
        invariant forall run :: told[run] == 1 <==>
          (run !in old(observed) && run in known) || (run in r.active - seen - todo && run in r.taken)
      {
        var run :| run in todo;
        todo := todo - {run};
        if run in r.taken {
          told := told + multiset{run};
          observed := observed + {run};
        }
      }
    }
  }

  function After(observed: set<string>, rounds: seq<Round>): set<string> {
    if rounds == [] then observed else Observed(After(observed, Front(rounds)), Last(rounds))
  }

  function Tellings(observed: set<string>, rounds: seq<Round>, run: string): nat {
    if rounds == [] then 0
    else Tellings(observed, Front(rounds), run) + if Told(After(observed, Front(rounds)), Last(rounds), run) then 1 else 0
  }

  /**
   While a run stays active it is told of exactly once: at most once whatever the messages,
   and at the latest in the first round whose callback does not raise.
   */
  lemma {:induction false} ToldOnceWhileActive(rounds: seq<Round>, run: string)
    requires forall r :: r in rounds ==> run in r.active
    ensures Tellings({}, rounds, run) == if run in After({}, rounds) then 1 else 0
    ensures run in After({}, rounds) <==>
              exists r :: r in rounds && ((r.message == Some(run) && r.messageTaken) || run in r.taken)
  {
    if rounds != [] {
      var front, r := Front(rounds), Last(rounds);
      assert rounds == front + [r] && forall x :: x in front ==> x in rounds;
      ToldOnceWhileActive(front, run);
    }
  }
}
