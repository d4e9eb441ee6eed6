/**
 The no-progress guard of an agent run: it bounds how often an action is repeated while the
 workspace does not change, although every attempt is observed, rejected ones included.

 Action signatures are values instead of texts; each names the revision it belongs to.
 */
module Progress {
  import opened Basics

  datatype Outcome = OK | ERROR | BLOCKED

  /** A shell command as its words classify it. */
  datatype CommandShape = Reading(place: string) | Searching(pattern: string, root: string) | Listing(words: string) | Running(text: string)

  datatype Action =
    | Mutation(path: string, payload: string)
    | ReadFile(path: string)
    | RunCommand(shape: CommandShape)
    | Browse(tool: string, target: string, branches: bool)
    | Research(tool: string, target: string)
    | Peek(tool: string, args: string)
    | OtherTool(tool: string, args: string)

  datatype Signature =
    | Mutate(path: string, payload: string)
    | Inspect(revision: nat, place: string)
    | InspectWith(revision: nat, tool: string, args: string)
    | Search(revision: nat, pattern: string, root: string)
    | Explore(revision: nat, words: string)
    | CommandRun(revision: nat, text: string)
    | BrowserUse(revision: nat, tool: string, target: string)
    | Researched(revision: nat, tool: string, target: string)
    | Used(revision: nat, tool: string, args: string)

  /** The repeat limit, the cap on exploration branches, and the normal form of a path. */
  datatype Settings = Settings(repeatLimit: nat, branchCap: nat, norm: string -> string)

  function SignatureOf(c: Settings, a: Action, revision: nat): Signature {
    match a
    case Mutation(path, payload) => Mutate(c.norm(path), payload)
    case ReadFile(path) => Inspect(revision, c.norm(path))
    case RunCommand(Reading(place)) => Inspect(revision, c.norm(place))
    case RunCommand(Searching(pattern, root)) => Search(revision, pattern, root)
    case RunCommand(Listing(words)) => Explore(revision, words)
    case RunCommand(Running(text)) => CommandRun(revision, text)
    case Browse(tool, target, _) => BrowserUse(revision, tool, target)
    case Research(tool, target) => Researched(revision, tool, target)
    case Peek(tool, args) => InspectWith(revision, tool, args)
    case OtherTool(tool, args) => Used(revision, tool, args)
  }

  predicate Exploratory(a: Action) {
    match a
    case Mutation(_, _) => false
    case RunCommand(Running(_)) => false
    case Browse(_, _, branches) => branches
    case OtherTool(_, _) => false
    case _ => true
  }

  predicate Inspection(s: Signature) { s.Inspect? || s.InspectWith? }

  /** How often an action with this signature may run. */
  function RepeatLimit(c: Settings, s: Signature): nat {
    if s.Researched? || Inspection(s) then 1 else c.repeatLimit
  }

  datatype Guard = Guard(
    revision: nat, counts: map<Signature, nat>, evidence: set<(nat, string)>,
    exploration: set<Signature>, unchecked: set<string>, noProgress: nat)

  const UNUSED := Guard(0, map[], {}, {}, {}, 0)

  function Count(g: Guard, s: Signature): nat { if s in g.counts then g.counts[s] else 0 }

  datatype Refusal = Repeated | BranchCap

  function Preflight(c: Settings, g: Guard, a: Action): Option<Refusal> {
    var s := SignatureOf(c, a, g.revision);
    if !a.Mutation? && Count(g, s) >= RepeatLimit(c, s) then Some(Repeated)
    else if Exploratory(a) && s !in g.exploration && |g.exploration| >= c.branchCap then Some(BranchCap)
    else None
  }

  /**
   What was observed of an attempt. An attempt without preflight is an action the user
   approved; `reopened` says that the loop permits re-inspection after it, because the
   contract's own checks failed. An attempt that is recorded may not be told to the live
   guard: a finish, a question, or an action that pauses for an approval.
   */
  datatype Attempt = Attempt(
    action: Action, outcome: Outcome, evidence: string,
    forced: bool, changed: bool, checked: bool, reopened: bool, told: bool)

  /** What the history keeps of an attempt. */
  function Recorded(x: Attempt): Attempt { x.(forced := false, changed := false, reopened := false) }

  predicate Changes(x: Attempt) { x.outcome == OK && (x.action.Mutation? || x.changed) }

  predicate Evidential(x: Attempt) { !Changes(x) && (x.outcome == OK || (x.action.RunCommand? && x.outcome == ERROR)) }

  predicate MakesProgress(c: Settings, g: Guard, x: Attempt) {
    if x.forced then false
    else if Changes(x) then x.changed || Count(g, SignatureOf(c, x.action, g.revision)) == 0
    else Evidential(x) && (g.revision, x.evidence) !in g.evidence
  }

  /** The signatures whose count a failure resets, so that the path may be read again. */
  function Permitted(c: Settings, g: Guard, x: Attempt): set<Signature> {
    var paths :=
      if x.outcome != ERROR then {}
      else if x.action.RunCommand? then g.unchecked
      else if x.action.Mutation? then (if x.action.path != "" then {c.norm(x.action.path)} else g.unchecked)
      else {};
    set path | path in paths && path != "" :: Inspect(g.revision, path)
  }

  /** The guard with the attempt counted, before its outcome is looked at. */
  function Counted(c: Settings, g: Guard, x: Attempt): Guard {
    var s := SignatureOf(c, x.action, g.revision);
    g.(counts := g.counts[s := Count(g, s) + 1], exploration := if Exploratory(x.action) then g.exploration + {s} else g.exploration)
  }

  /** A new revision; a written file counts as read in it. */
  function Revised(c: Settings, g: Guard, x: Attempt): Guard {
    var next := g.(revision := g.revision + 1, exploration := {});
    if !x.action.Mutation? then next
    else
      var path := c.norm(x.action.path);
      next.(unchecked := if path != "" then g.unchecked + {path} else g.unchecked,
            counts := g.counts[Inspect(g.revision + 1, path) := 1])
  }

  function Reset(g: Guard, permitted: set<Signature>): Guard {
    g.(counts := g.counts - permitted, exploration := g.exploration - permitted)
  }

  function Observed(c: Settings, g: Guard, x: Attempt): Guard {
    var counted := Counted(c, g, x);
    var judged :=
      if Changes(x) then Revised(c, counted, x)
      else if Evidential(x) then counted.(evidence := g.evidence + {(g.revision, x.evidence)})
      else counted;
    var settled :=
      if x.action.RunCommand? && x.outcome == OK then judged.(unchecked := {})
      else Reset(judged, Permitted(c, g, x));
    settled.(noProgress := if MakesProgress(c, g, x) then 0 else g.noProgress + 1)
  }

  /** The inspections of every path changed since the last command that succeeded. */
  function Unchecked(g: Guard): set<Signature> { set path | path in g.unchecked && path != "" :: Inspect(g.revision, path) }

  /** The attempt observed, and re-inspection permitted if the loop asks for it. */
  function Advanced(c: Settings, g: Guard, x: Attempt): Guard {
    var after := Observed(c, g, x);
    if x.reopened then Reset(after, Unchecked(after)) else after
  }

  predicate Reopens(c: Settings, g: Guard, x: Attempt, s: Signature) {
    s in Permitted(c, g, x) || (x.reopened && s in Unchecked(Observed(c, g, x)))
  }

  /** A history observed again when a run is resumed: every entry, as it was recorded. */
  function Replayed(c: Settings, history: seq<Attempt>): Guard {
    if history == [] then UNUSED else Observed(c, Replayed(c, Front(history)), Recorded(Last(history)))
  }

  // ---- Over whole runs ---------------------------------------------------------------------

  function Told(c: Settings, g: Guard, x: Attempt): Guard { if x.told then Advanced(c, g, x) else g }

  function After(c: Settings, g: Guard, run: seq<Attempt>): Guard {
    if run == [] then g else Told(c, After(c, g, Front(run)), Last(run))
  }

  /** How many attempts under the signature preflight let through. */
  function Admitted(c: Settings, g: Guard, run: seq<Attempt>, s: Signature): nat {
    if run == [] then 0
    else
      var before := After(c, g, Front(run));
      var x := Last(run);
      Admitted(c, g, Front(run), s)
      + if x.told && x.checked && SignatureOf(c, x.action, before.revision) == s && Preflight(c, before, x.action).None? then 1 else 0
  }

  /** How many attempts permitted the signature again. */
  function Permits(c: Settings, g: Guard, run: seq<Attempt>, s: Signature): nat {
    if run == [] then 0
    else Permits(c, g, Front(run), s) + if Last(run).told && Reopens(c, After(c, g, Front(run)), Last(run), s) then 1 else 0
  }

  lemma CountAfter(c: Settings, g: Guard, x: Attempt, s: Signature)
    ensures var own := SignatureOf(c, x.action, g.revision) == s;
            && (Reopens(c, g, x, s) ==> Inspection(s))
            && (!Reopens(c, g, x, s) ==> Count(Advanced(c, g, x), s) >= Least(1, Count(g, s)))
            && (!Reopens(c, g, x, s) && own ==> Count(Advanced(c, g, x), s) >= 1)
            && (!Inspection(s) ==> Count(Advanced(c, g, x), s) == Count(g, s) + if own then 1 else 0)
  {
  }

  function Least(a: nat, b: nat): nat { if a <= b then a else b }

  /**
   No action that does not change the workspace is admitted more often than its limit while
   the revision it is counted under lasts, whatever was attempted and rejected in between.
   */
  lemma {:induction false} RepetitionIsBounded(c: Settings, g: Guard, run: seq<Attempt>, s: Signature)
    requires !s.Mutate? && !Inspection(s)
    ensures Admitted(c, g, run, s) <= RepeatLimit(c, s)
    ensures Admitted(c, g, run, s) <= Count(After(c, g, run), s)
  {
    if run != [] {
      RepetitionIsBounded(c, g, Front(run), s);
      CountAfter(c, After(c, g, Front(run)), Last(run), s);
    }
  }

  /** A place is inspected once in a revision, and once more for each attempt that permits it again. */
  lemma {:induction false} InspectionIsBounded(c: Settings, g: Guard, run: seq<Attempt>, s: Signature)
    requires Inspection(s)
    ensures Admitted(c, g, run, s) <= 1 + Permits(c, g, run, s)
    ensures Admitted(c, g, run, s) <= Permits(c, g, run, s) + Least(1, Count(After(c, g, run), s))
  {
    if run != [] {
      InspectionIsBounded(c, g, Front(run), s);
      CountAfter(c, After(c, g, Front(run)), Last(run), s);
    }
  }

  /** A file just written counts as read: it may be inspected only after a failure. */
  lemma WrittenFileIsKnown(c: Settings, g: Guard, x: Attempt)
    requires x.action.Mutation? && x.outcome == OK
    ensures Preflight(c, Observed(c, g, x), ReadFile(x.action.path)) == Some(Repeated)
  {
  }

  function ProgressUnder(c: Settings, g: Guard, run: seq<Attempt>, revision: nat, evidence: string): nat {
    if run == [] then 0
    else
      var before := After(c, g, Front(run));
      ProgressUnder(c, g, Front(run), revision, evidence)
      + if Last(run).told && Evidential(Last(run)) && (before.revision, Last(run).evidence) == (revision, evidence) && MakesProgress(c, before, Last(run))
        then 1 else 0
  }

  /** The same evidence counts as progress at most once in a revision. */
  lemma {:induction false} EvidenceCountsOnce(c: Settings, g: Guard, run: seq<Attempt>, revision: nat, evidence: string)
    ensures ProgressUnder(c, g, run, revision, evidence) <= 1
    ensures ProgressUnder(c, g, run, revision, evidence) == 1 ==> (revision, evidence) in After(c, g, run).evidence
  {
    if run != [] {
      EvidenceCountsOnce(c, g, Front(run), revision, evidence);
    }
  }

  // ---- The resumed guard against the live one ---------------------------------------------

  /** The signature in another revision. */
  function At(s: Signature, revision: nat): Signature {
    match s
    case Mutate(_, _) => s
    case Inspect(_, place) => Inspect(revision, place)
    case InspectWith(_, tool, args) => InspectWith(revision, tool, args)
    case Search(_, pattern, root) => Search(revision, pattern, root)
    case Explore(_, words) => Explore(revision, words)
    case CommandRun(_, text) => CommandRun(revision, text)
    case BrowserUse(_, tool, target) => BrowserUse(revision, tool, target)
    case Researched(_, tool, target) => Researched(revision, tool, target)
    case Used(_, tool, args) => Used(revision, tool, args)
  }

  lemma SameActionAt(c: Settings, a: Action, r: nat, q: nat)
    ensures SignatureOf(c, a, q) == At(SignatureOf(c, a, r), q)
    ensures a.Mutation? <==> SignatureOf(c, a, r).Mutate?
    ensures !a.Mutation? ==> SignatureOf(c, a, r).revision == r
  {
  }

  /** Nothing is counted for later revisions, and what is explored belongs to this one. */
  ghost predicate Current(g: Guard) {
    && (forall s :: s in g.counts && !s.Mutate? ==> s.revision <= g.revision)
    && (forall s :: s in g.exploration ==> !s.Mutate? && s.revision == g.revision)
  }

  /** `b` counts and has explored, in its own revision, no less than `a` in its own. */
  ghost predicate AsStrict(a: Guard, b: Guard) {
    && a.unchecked == b.unchecked && Current(a) && Current(b)
    && (forall s: Signature :: !s.Mutate? && s.revision == a.revision ==> Count(a, s) <= Count(b, At(s, b.revision)))
    && (forall s :: s in a.exploration ==> At(s, b.revision) in b.exploration)
  }

  /** What is recorded without being told neither changes anything nor permits anything. */
  predicate Quiet(x: Attempt) { x.action.OtherTool? || x.outcome == BLOCKED }

  ghost predicate Faithful(run: seq<Attempt>) { forall x :: x in run && !x.told ==> Quiet(x) }

  /** A change of the workspace that no write explains: only the live guard was told of it. */
  predicate Silent(x: Attempt) { x.outcome == OK && x.changed && !x.action.Mutation? }
  lemma ObservedCount(c: Settings, g: Guard, x: Attempt, s: Signature)
    ensures Count(Observed(c, g, x), s) ==
              if s in Permitted(c, g, x) then 0
              else if Changes(x) && x.action.Mutation? && s == Inspect(g.revision + 1, c.norm(x.action.path)) then 1
              else Count(g, s) + if SignatureOf(c, x.action, g.revision) == s then 1 else 0
  {
  }

  lemma ObservedParts(c: Settings, g: Guard, x: Attempt)
    ensures var v := Observed(c, g, x);
            && v.revision == g.revision + (if Changes(x) then 1 else 0)
            && v.exploration ==
                 (if Changes(x) then {}
                  else (if Exploratory(x.action) then g.exploration + {SignatureOf(c, x.action, g.revision)} else g.exploration)
                       - Permitted(c, g, x))
            && v.unchecked ==
                 if x.action.RunCommand? && x.outcome == OK then {}
                 else if Changes(x) && x.action.Mutation? && c.norm(x.action.path) != "" then g.unchecked + {c.norm(x.action.path)}
                 else g.unchecked
  {
  }

  lemma ObservedIsCurrent(c: Settings, g: Guard, x: Attempt)
    requires Current(g)
    ensures Current(Observed(c, g, x))
  {
    SameActionAt(c, x.action, g.revision, g.revision);
  }

  lemma {:induction false} ReplayedIsCurrent(c: Settings, history: seq<Attempt>)
    ensures Current(Replayed(c, history))
  {
    if history != [] {
      ReplayedIsCurrent(c, Front(history));
      ObservedIsCurrent(c, Replayed(c, Front(history)), Recorded(Last(history)));
    }
  }

  /** Both guards permit the same places again. */
  lemma PermittedAt(c: Settings, a: Guard, b: Guard, x: Attempt, s: Signature)
    requires a.unchecked == b.unchecked && !s.Mutate? && s.revision == a.revision
    ensures s in Permitted(c, a, x) <==> At(s, b.revision) in Permitted(c, b, Recorded(x))
  {
    if s.Inspect? {
      assert s == Inspect(a.revision, s.place) && At(s, b.revision) == Inspect(b.revision, s.place);
    }
  }

  lemma CountsStayAsStrict(c: Settings, a: Guard, b: Guard, x: Attempt, s: Signature)
    requires AsStrict(a, b) && !s.Mutate? && s.revision == Observed(c, a, x).revision
    ensures Count(Observed(c, a, x), s) <= Count(Observed(c, b, Recorded(x)), At(s, Observed(c, b, Recorded(x)).revision))
  {
    var q := Observed(c, b, Recorded(x)).revision;
    ObservedParts(c, a, x);
    ObservedParts(c, b, Recorded(x));
    ObservedCount(c, a, x, s);
    ObservedCount(c, b, Recorded(x), At(s, q));
    SameActionAt(c, x.action, a.revision, b.revision);
    if !Changes(x) {
      PermittedAt(c, a, b, x, s);
    }
  }

  lemma ExplorationStaysAsStrict(c: Settings, a: Guard, b: Guard, x: Attempt, s: Signature)
    requires AsStrict(a, b) && s in Observed(c, a, x).exploration
    ensures At(s, Observed(c, b, Recorded(x)).revision) in Observed(c, b, Recorded(x)).exploration
  {
    ObservedParts(c, a, x);
    ObservedParts(c, b, Recorded(x));
    SameActionAt(c, x.action, a.revision, b.revision);
    PermittedAt(c, a, b, x, s);
  }

  lemma ToldStaysAsStrict(c: Settings, a: Guard, b: Guard, x: Attempt)
    requires AsStrict(a, b)
    ensures AsStrict(Advanced(c, a, x), Observed(c, b, Recorded(x)))
  {
    var v, w := Observed(c, a, x), Observed(c, b, Recorded(x));
    ObservedIsCurrent(c, a, x);
    ObservedIsCurrent(c, b, Recorded(x));
    ObservedParts(c, a, x);
    ObservedParts(c, b, Recorded(x));
    forall s: Signature | !s.Mutate? && s.revision == v.revision ensures Count(v, s) <= Count(w, At(s, w.revision)) {
      CountsStayAsStrict(c, a, b, x, s);
    }
    forall s | s in v.exploration ensures At(s, w.revision) in w.exploration {
      ExplorationStaysAsStrict(c, a, b, x, s);
    }
    ResetStaysAsStrict(v, w, Unchecked(v));
  }

  lemma ResetStaysAsStrict(a: Guard, b: Guard, permitted: set<Signature>)
    requires AsStrict(a, b)
    ensures AsStrict(Reset(a, permitted), b)
  {
    var v := Reset(a, permitted);
    forall s ensures Count(v, s) <= Count(a, s) {
    }
  }

  lemma UntoldStaysAsStrict(c: Settings, a: Guard, b: Guard, x: Attempt)
    requires AsStrict(a, b) && Quiet(x)
    ensures AsStrict(a, Observed(c, b, Recorded(x)))
  {
    var w := Observed(c, b, Recorded(x));
    ObservedIsCurrent(c, b, Recorded(x));
    ObservedParts(c, b, Recorded(x));
    forall s: Signature | !s.Mutate? && s.revision == a.revision ensures Count(a, s) <= Count(w, At(s, w.revision)) {
      ObservedCount(c, b, Recorded(x), At(s, b.revision));
    }
  }

  lemma {:induction false} ResumedStaysAsStrict(c: Settings, history: seq<Attempt>, run: seq<Attempt>)
    requires Faithful(run)
    ensures AsStrict(After(c, Replayed(c, history), run), Replayed(c, history + run))
    decreases |run|
  {
    if run == [] {
      assert history + run == history;
      ReplayedIsCurrent(c, history);
      assert forall s: Signature {:trigger At(s, s.revision)} :: !s.Mutate? ==> At(s, s.revision) == s;
    } else {
      assert Front(history + run) == history + Front(run) && Last(history + run) == Last(run);
      assert Last(run) in run && forall x :: x in Front(run) ==> x in run;
      ResumedStaysAsStrict(c, history, Front(run));
      var a, b := After(c, Replayed(c, history), Front(run)), Replayed(c, history + Front(run));
      if Last(run).told {
        ToldStaysAsStrict(c, a, b, Last(run));
      } else {
        UntoldStaysAsStrict(c, a, b, Last(run));
      }
    }
  }

  lemma {:induction false} NoFewerBranches(a: set<Signature>, b: set<Signature>, r: nat, q: nat)
    requires forall s :: s in a ==> !s.Mutate? && s.revision == r && At(s, q) in b
    ensures |a| <= |b|
  {
    if s :| s in a {
      forall x | x in a - {s} ensures At(x, q) in b - {At(s, q)} {
        assert At(At(x, q), r) == x && At(At(s, q), r) == s;
      }
      NoFewerBranches(a - {s}, b - {At(s, q)}, r, q);
    }
  }

  lemma StricterRefuses(c: Settings, live: Guard, resumed: Guard, a: Action)
    requires AsStrict(live, resumed)
    ensures Preflight(c, live, a) == Some(Repeated) ==> Preflight(c, resumed, a) == Some(Repeated)
    ensures Preflight(c, live, a) == Some(BranchCap) ==> Exploratory(a) && |resumed.exploration| >= c.branchCap
  {
    SameActionAt(c, a, live.revision, resumed.revision);
    NoFewerBranches(live.exploration, resumed.exploration, live.revision, resumed.revision);
  }

  /**
   A resumed guard has seen less of each attempt than the live one. It still refuses every
   repetition that the live guard refuses. What it permits though the live guard refuses it
   are exactly the actions refused for the branch cap whose branch it has explored already
   and not yet exhausted.
   */
  lemma ResumedIsAsStrict(c: Settings, history: seq<Attempt>, run: seq<Attempt>, a: Action)
    requires Faithful(run)
    ensures var live, resumed := After(c, Replayed(c, history), run), Replayed(c, history + run);
            var s := SignatureOf(c, a, resumed.revision);
            && (Preflight(c, live, a) == Some(Repeated) ==> Preflight(c, resumed, a) == Some(Repeated))
            && (Preflight(c, live, a).Some? && Preflight(c, resumed, a).None? <==>
                  Preflight(c, live, a) == Some(BranchCap) && s in resumed.exploration && Count(resumed, s) < RepeatLimit(c, s))
  {
    var live, resumed := After(c, Replayed(c, history), run), Replayed(c, history + run);
    ResumedStaysAsStrict(c, history, run);
    StricterRefuses(c, live, resumed, a);
  }

  /** It is the live guard, its count of idle attempts apart, when each attempt was told and nothing was permitted or changed silently. */
  lemma {:induction false} ResumedIsTheSame(c: Settings, history: seq<Attempt>, run: seq<Attempt>)
    requires forall x :: x in run ==> x.told && !x.reopened && !Silent(x)
    ensures var live, resumed := After(c, Replayed(c, history), run), Replayed(c, history + run);
            && resumed == live.(noProgress := resumed.noProgress)
            && ((forall x :: x in run ==> !x.forced && !x.changed) ==> resumed == live)
    decreases |run|
  {
    if run == [] {
      assert history + run == history;
    } else {
      assert Front(history + run) == history + Front(run) && Last(history + run) == Last(run);
      assert Last(run) in run && forall x :: x in Front(run) ==> x in run;
      ResumedIsTheSame(c, history, Front(run));
      SameAfter(c, After(c, Replayed(c, history), Front(run)), Replayed(c, history + Front(run)), Last(run));
    }
  }

  lemma SameAfter(c: Settings, live: Guard, resumed: Guard, x: Attempt)
    requires resumed == live.(noProgress := resumed.noProgress) && x.told && !x.reopened && !Silent(x)
    ensures var v, w := Told(c, live, x), Observed(c, resumed, Recorded(x));
            && w == v.(noProgress := w.noProgress)
            && (resumed == live && !x.forced && !x.changed ==> w == v)
  {
    assert Changes(Recorded(x)) == Changes(x);
    assert Permitted(c, resumed, Recorded(x)) == Permitted(c, live, x);
  }

  /** Two searches, and between them a command that changed the workspace. */
  function SearchOf(pattern: string): Attempt {
    Attempt(RunCommand(Searching(pattern, ".")), OK, pattern, false, false, true, false, true)
  }

  const MAKE := Attempt(RunCommand(Running("make")), OK, "made", false, true, true, false, true)

  const SEARCHES := [SearchOf("a"), MAKE, SearchOf("b")]

  /** An input: with a cap of one branch the live guard refuses the first search again, and the resumed one permits it. */
  lemma ResumedMayPermitMore(norm: string -> string)
    ensures var c := Settings(2, 1, norm);
            && Preflight(c, After(c, Replayed(c, []), SEARCHES), SearchOf("a").action) == Some(BranchCap)
            && Preflight(c, Replayed(c, [] + SEARCHES), SearchOf("a").action) == None
  {
    var c := Settings(2, 1, norm);
    LiveRefuses(c);
    ResumedPermits(c);
    assert [] + SEARCHES == SEARCHES;
  }

  lemma Searches()
    ensures Front(SEARCHES) == [SearchOf("a"), MAKE] && Front(Front(SEARCHES)) == [SearchOf("a")] && Front(Front(Front(SEARCHES))) == []
  {
  }

  lemma LiveRefuses(c: Settings)
    requires c.branchCap == 1 && c.repeatLimit == 2
    ensures Preflight(c, After(c, UNUSED, SEARCHES), SearchOf("a").action) == Some(BranchCap)
  {
    var g1 := Told(c, UNUSED, SearchOf("a"));
    var g2 := Told(c, g1, MAKE);
    var s := Search(1, "a", ".");
    AfterSearch(c, UNUSED, "a");
    ObservedParts(c, g1, MAKE);
    ObservedCount(c, UNUSED, SearchOf("a"), s);
    ObservedCount(c, g1, MAKE, s);
    AfterSearch(c, g2, "b");
    ObservedCount(c, g2, SearchOf("b"), s);
    AfterSearches(c);
    assert {Search(1, "b", ".")} == Told(c, g2, SearchOf("b")).exploration;
  }

  lemma AfterSearches(c: Settings)
    ensures After(c, UNUSED, SEARCHES) == Told(c, Told(c, Told(c, UNUSED, SearchOf("a")), MAKE), SearchOf("b"))
  {
    Searches();
    assert After(c, UNUSED, Front(Front(SEARCHES))) == Told(c, UNUSED, SearchOf("a"));
    assert After(c, UNUSED, Front(SEARCHES)) == Told(c, After(c, UNUSED, Front(Front(SEARCHES))), MAKE);
  }

  lemma ResumedPermits(c: Settings)
    requires c.branchCap == 1 && c.repeatLimit == 2
    ensures Preflight(c, Replayed(c, SEARCHES), SearchOf("a").action) == None
  {
    var h1 := Observed(c, UNUSED, Recorded(SearchOf("a")));
    var h2 := Observed(c, h1, Recorded(MAKE));
    AfterRecorded(c, UNUSED, SearchOf("a"), "a");
    AfterRecorded(c, h1, MAKE, "a");
    AfterRecorded(c, h2, SearchOf("b"), "a");
    ReplayedSearches(c);
  }

  lemma ReplayedSearches(c: Settings)
    ensures Replayed(c, SEARCHES) ==
              Observed(c, Observed(c, Observed(c, UNUSED, Recorded(SearchOf("a"))), Recorded(MAKE)), Recorded(SearchOf("b")))
  {
    Searches();
    assert Replayed(c, Front(Front(SEARCHES))) == Observed(c, UNUSED, Recorded(SearchOf("a")));
    assert Replayed(c, Front(SEARCHES)) == Observed(c, Replayed(c, Front(Front(SEARCHES))), Recorded(MAKE));
  }

  /** The search is one more branch. */
  lemma AfterSearch(c: Settings, g: Guard, pattern: string)
    ensures var v := Told(c, g, SearchOf(pattern));
            v.exploration == g.exploration + {Search(g.revision, pattern, ".")} && v.revision == g.revision
  {
    ObservedParts(c, g, SearchOf(pattern));
  }

  /** A recorded command that succeeded leaves the revision and what was explored. */
  lemma AfterRecorded(c: Settings, g: Guard, x: Attempt, pattern: string)
    requires x.action.RunCommand? && x.outcome == OK
    ensures var v, s := Observed(c, g, Recorded(x)), Search(g.revision, pattern, ".");
            && v.revision == g.revision && g.exploration <= v.exploration
            && Count(v, s) == Count(g, s) + (if x.action == SearchOf(pattern).action then 1 else 0)
            && (x.action == SearchOf(pattern).action ==> s in v.exploration)
  {
    ObservedParts(c, g, Recorded(x));
    ObservedCount(c, g, Recorded(x), Search(g.revision, pattern, "."));
  }

  // ---- The guard ------------------------------------------------------------------------------

  class ProgressGuard {
    const settings: Settings
    var revision: nat
    var counts: map<Signature, nat>
    var evidence: set<(nat, string)>
    var exploration: set<Signature>
    var unchecked: set<string>
    var noProgress: nat

    function State(): Guard
      reads this
    {
      Guard(revision, counts, evidence, exploration, unchecked, noProgress)
    }

    /** A guard that has observed a history, of which only tool, arguments, observation and status are left. */
    constructor (settings: Settings, history: seq<Attempt>)
      ensures this.settings == settings && State() == Replayed(settings, history)
    {
      this.settings := settings;
      revision, counts, evidence, exploration, unchecked, noProgress := 0, map[], {}, {}, {}, 0;
      new;
      for i := 0 to |history|
        invariant this.settings == settings && State() == Replayed(settings, history[..i])
      {
        assert Front(history[..i + 1]) == history[..i] && Last(history[..i + 1]) == history[i];
        var progress := Observe(Recorded(history[i]));
      }
      assert history[..|history|] == history;
    }

    method Observe(x: Attempt) returns (progress: bool)
      modifies this
      ensures State() == Observed(settings, old(State()), x)
      ensures progress == MakesProgress(settings, old(State()), x)
    {
      ghost var before := State();
      var signature := SignatureOf(settings, x.action, revision);
      var seen := Count(State(), signature) > 0;
      counts := counts[signature := Count(State(), signature) + 1];
      if Exploratory(x.action) { exploration := exploration + {signature}; }
      if Changes(x) {
        progress := (!seen || x.changed) && !x.forced;
        Revise(x);
      } else if Evidential(x) {
        progress := (revision, x.evidence) !in evidence && !x.forced;
        evidence := evidence + {(revision, x.evidence)};
      } else {
        progress := false;
      }
      Settle(x, before);
      noProgress := if progress then 0 else noProgress + 1;
    }

    method Revise(x: Attempt)
      modifies this
      ensures State() == Revised(settings, old(State()), x)
    {
      revision, exploration := revision + 1, {};
      if x.action.Mutation? {
        var path := settings.norm(x.action.path);
        if path != "" { unchecked := unchecked + {path}; }
        counts := counts[Inspect(revision, path) := 1];
      }
    }

    method Settle(x: Attempt, ghost before: Guard)
      requires x.outcome == ERROR ==> revision == before.revision && unchecked == before.unchecked
      modifies this
      ensures State() ==
        if x.action.RunCommand? && x.outcome == OK then old(State()).(unchecked := {})
        else Reset(old(State()), Permitted(settings, before, x))
    {
      assert counts - {} == counts && exploration - {} == exploration;
      if x.action.RunCommand? {
        if x.outcome == ERROR {
          PermitReinspection("");
        } else if x.outcome == OK {
          unchecked := {};
        }
      } else if x.action.Mutation? && x.outcome == ERROR {
        PermitReinspection(x.action.path);
      }
    }

    /** An empty path stands for every path changed since the last command that succeeded. */
    method PermitReinspection(path: string)
      modifies this
      ensures var paths := if path != "" then {settings.norm(path)} else old(unchecked);
              State() == Reset(old(State()), set p | p in paths && p != "" :: Inspect(old(revision), p))
    {
      var candidates := if path != "" then {settings.norm(path)} else unchecked;
      ghost var all := candidates;
      while candidates != {}
        invariant candidates <= all
        invariant revision == old(revision) && unchecked == old(unchecked) && evidence == old(evidence) && noProgress == old(noProgress)
        invariant counts == old(counts) - (set p | p in all - candidates && p != "" :: Inspect(revision, p))
        invariant exploration == old(exploration) - (set p | p in all - candidates && p != "" :: Inspect(revision, p))
      {
        var candidate :| candidate in candidates;
        ghost var done := set p | p in all - candidates && p != "" :: Inspect(revision, p);
        candidates := candidates - {candidate};
        if candidate == "" {
          assert (set p | p in all - candidates && p != "" :: Inspect(revision, p)) == done;
          continue;
        }
        var signature := Inspect(revision, candidate);
        counts := counts - {signature};
        exploration := exploration - {signature};
        assert (set p | p in all - candidates && p != "" :: Inspect(revision, p)) == done + {signature};
      }
      assert all - candidates == all;
    }
  }
}
