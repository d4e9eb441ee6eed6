/**
 The validation of a proposal and the bounded repair loop that may lock one.

 The compiler model answers with proposals, the critic with verdicts; both are arbitrary.
 The content hash of a draft is a free constructor.
 */
module ContractCompiler {
  import opened Basics
  import opened Contract

  // ---- Deterministic validation --------------------------------------------------------

  function Covered(checks: seq<Check>): set<string> {
    set c, id | c in checks && c.source == FromContract && id in c.criterionIds :: id
  }

  predicate AssertsStderr(j: Judgement, c: Check, criterion: string) {
    && c.stdout.Some? && c.stdout.value != ""
    && forall marker :: marker in j.stderrMarkers(criterion) ==> j.mentions(c.stdout.value, marker)
  }

  predicate StderrLeftOpen(j: Judgement, p: Proposal, n: nat)
    requires 1 <= n <= |p.criteria|
  {
    && j.stderrMarkers(p.criteria[n - 1]) != {}
    && forall c :: c in p.checks && FormatId(n) in c.criterionIds ==> !IsTest(j, c) && !AssertsStderr(j, c, p.criteria[n - 1])
  }

  predicate RunsCommand(c: Check) { c.kind == Command && c.command != "" }

  /** What each issue says of the proposal. */
  predicate Holds(j: Judgement, issue: Issue, p: Proposal, d: Discovery, granted: set<string>) {
    match issue
    case RiskNotLow(risk) => risk == p.risk != Low
    case LowConfidence(confidence) => confidence == p.confidence < MIN_CONFIDENCE
    case TooManyCriteria(count) => count == |p.criteria| > MAX_CRITERIA
    case Tautology(n) => 1 <= n <= |p.criteria| && j.tautological(Strip(p.criteria[n - 1]))
    case Uncovered(missing) => missing == AllIds(|p.criteria|) - Covered(p.checks) != {}
    case NoChecks => p.checks == []
    case CommandFault(id, fault) =>
      exists c :: c in p.checks && c.id == id && RunsCommand(c) && fault in j.commandFaults(c, granted)
    case RequiresExec(id) => EXEC !in granted && exists c :: c in p.checks && c.id == id && RunsCommand(c)
    case StderrUnasserted(n) => 1 <= n <= |p.criteria| && StderrLeftOpen(j, p, n)
    case QualityGatesRequireExec => d.qualityChecks != [] && EXEC !in granted
    case AuthorityNotGranted(missing) => missing == p.authority - granted != {}
    case FromCritic(_) => false
  }

  method HeadIssues(j: Judgement, p: Proposal, d: Discovery, granted: set<string>) returns (issues: seq<Issue>)
    ensures forall x :: x in issues <==>
      (x.RiskNotLow? || x.LowConfidence? || x.TooManyCriteria? || x.Tautology?) && Holds(j, x, p, d, granted)
  {
    issues := [];
    if p.risk != Low { issues := issues + [RiskNotLow(p.risk)]; }
    if p.confidence < MIN_CONFIDENCE { issues := issues + [LowConfidence(p.confidence)]; }
    if |p.criteria| > MAX_CRITERIA { issues := issues + [TooManyCriteria(|p.criteria|)]; }
    ghost var head := issues;
    for i := 0 to |p.criteria|
      invariant forall x :: x in issues <==> x in head || (x.Tautology? && x.criterion <= i && Holds(j, x, p, d, granted))
    {
      if j.tautological(Strip(p.criteria[i])) { issues := issues + [Tautology(i + 1)]; }
    }
  }

  method CoverageIssues(j: Judgement, p: Proposal, d: Discovery, granted: set<string>) returns (issues: seq<Issue>)
    ensures forall x :: x in issues <==> (x.Uncovered? || x.NoChecks?) && Holds(j, x, p, d, granted)
  {
    issues := [];
    var missing := AllIds(|p.criteria|) - Covered(p.checks);
    if missing != {} { issues := issues + [Uncovered(missing)]; }
    if p.checks == [] { issues := issues + [NoChecks]; }
  }

  function Faults(id: CheckId, faults: seq<string>): (r: seq<Issue>)
    ensures forall x :: x in r <==> x.CommandFault? && x.id == id && x.fault in faults
  {
    if faults == [] then []
    else
      assert faults == Front(faults) + [Last(faults)];
      Faults(id, Front(faults)) + [CommandFault(id, Last(faults))]
  }

  ghost predicate CommandIssue(j: Judgement, x: Issue, checks: seq<Check>, granted: set<string>) {
    exists c :: c in checks && RunsCommand(c) &&
      match x
      case CommandFault(id, fault) => c.id == id && fault in j.commandFaults(c, granted)
      case RequiresExec(id) => c.id == id && EXEC !in granted
      case _ => false
  }

  method CommandIssues(j: Judgement, checks: seq<Check>, granted: set<string>) returns (issues: seq<Issue>)
    ensures forall x :: x in issues <==> CommandIssue(j, x, checks, granted)
  {
    issues := [];
    for i := 0 to |checks|
      invariant forall x :: x in issues <==> CommandIssue(j, x, checks[..i], granted)
    {
      var c := checks[i];
      var found := if !RunsCommand(c) then [] else
        Faults(c.id, j.commandFaults(c, granted)) + if EXEC in granted then [] else [RequiresExec(c.id)];
      assert checks[..i + 1] == checks[..i] + [c];
      assert forall x :: x in found <==> CommandIssue(j, x, [c], granted) by {
        assert forall x :: CommandIssue(j, x, [c], granted) ==> c in [c];
      }
      CommandIssuesSplit(j, checks[..i], [c], granted);
      issues := issues + found;
    }
    assert checks[..|checks|] == checks;
  }

  lemma CommandIssuesSplit(j: Judgement, a: seq<Check>, b: seq<Check>, granted: set<string>)
    ensures forall x :: CommandIssue(j, x, a + b, granted) <==> CommandIssue(j, x, a, granted) || CommandIssue(j, x, b, granted)
  {
  }

  method TailIssues(j: Judgement, p: Proposal, d: Discovery, granted: set<string>) returns (issues: seq<Issue>)
    ensures forall x :: x in issues <==>
      (x.StderrUnasserted? || x.QualityGatesRequireExec? || x.AuthorityNotGranted?) && Holds(j, x, p, d, granted)
  {
    issues := [];
    for i := 0 to |p.criteria|
      invariant forall x :: x in issues <==> x.StderrUnasserted? && x.criterion <= i && Holds(j, x, p, d, granted)
    {
      if StderrLeftOpen(j, p, i + 1) { issues := issues + [StderrUnasserted(i + 1)]; }
    }
    if d.qualityChecks != [] && EXEC !in granted { issues := issues + [QualityGatesRequireExec]; }
    var missing := p.authority - granted;
    if missing != {} { issues := issues + [AuthorityNotGranted(missing)]; }
  }

  method DeterministicIssues(j: Judgement, p: Proposal, d: Discovery, granted: set<string>) returns (issues: seq<Issue>)
    ensures forall x :: x in issues <==> Holds(j, x, p, d, granted)
  {
    var head := HeadIssues(j, p, d, granted);
    var coverage := CoverageIssues(j, p, d, granted);
    var commands := CommandIssues(j, p.checks, granted);
    var tail := TailIssues(j, p, d, granted);
    return head + coverage + commands + tail;
  }

  // ---- The verdict on a proposal --------------------------------------------------------

  datatype Critique = Critique(accepted: bool, issues: seq<string>, question: Option<string>)

  datatype Verdict = Verdict(accepted: bool, issues: seq<Issue>, question: Option<string>, adjudicated: bool)

  function CriticIssues(texts: seq<string>): seq<Issue> {
    if texts == [] then []
    else CriticIssues(Front(texts)) + if Strip(Last(texts)) != "" then [FromCritic(Strip(Last(texts)))] else []
  }

  const MAX_ISSUES := 12

  function IssueList(critique: Critique, deterministic: seq<Issue>): seq<Issue> {
    var all := Dedupe(CriticIssues(critique.issues) + deterministic);
    if |all| <= MAX_ISSUES then all else all[..MAX_ISSUES]
  }

  predicate AnswersItself(j: Judgement, critique: Critique) {
    critique.question.Some? && critique.question.value != "" ==>
      || j.internalQuestion(critique.question.value)
      || (critique.issues != [] && j.genericQuestion(critique.question.value))
  }

  predicate PreviewsComplete(d: Discovery) {
    d.testFiles != [] && forall path :: path in d.testFiles ==> path in d.previewed
  }

  /** A rejection may be overruled only for advice, and only behind a complete test gate. */
  predicate Adjudicated(j: Judgement, p: Proposal, d: Discovery, critique: Critique, deterministic: seq<Issue>) {
    && !critique.accepted && deterministic == []
    && (forall text :: text in critique.issues ==> j.advisory(text, p, d))
    && AnswersItself(j, critique)
    && (exists c :: c in p.checks && CompleteGate(j, c, |p.criteria|))
    && PreviewsComplete(d)
  }

  function Judge(j: Judgement, p: Proposal, d: Discovery, critique: Critique, deterministic: seq<Issue>): (v: Verdict)
    ensures v.accepted ==> deterministic == []
    ensures v.accepted && !v.adjudicated ==> critique.accepted && forall text :: text in critique.issues ==> Strip(text) == ""
    ensures v.question.None? <==> v.accepted
  {
    var issues := IssueList(critique, deterministic);
    NoIssueLost(critique, deterministic);
    var adjudicated := Adjudicated(j, p, d, critique, deterministic);
    var accepted := (critique.accepted && issues == []) || adjudicated;
    var question :=
      if accepted then None
      else if critique.question.Some? && critique.question.value != "" then critique.question
      else Some(j.questionFor(issues));
    Verdict(accepted, issues, question, adjudicated)
  }

  /** The bound on the list of issues never hides that there is one. */
  lemma NoIssueLost(critique: Critique, deterministic: seq<Issue>)
    ensures IssueList(critique, deterministic) == [] <==>
              deterministic == [] && forall text :: text in critique.issues ==> Strip(text) == ""
  {
    var all := CriticIssues(critique.issues) + deterministic;
    CriticIssuesEmpty(critique.issues);
    if all != [] {
      assert all[0] in Dedupe(all);
    }
  }

  lemma {:induction false} CriticIssuesEmpty(texts: seq<string>)
    ensures CriticIssues(texts) == [] <==> forall text :: text in texts ==> Strip(text) == ""
  {
    if texts != [] {
      CriticIssuesEmpty(Front(texts));
      assert texts == Front(texts) + [Last(texts)];
    }
  }

  // ---- The repair loop --------------------------------------------------------------------

  /** What the schema of a proposal and the shape coercions before it guarantee. */
  ghost predicate WellFormed(p: Proposal) {
    && 1 <= |p.criteria| <= 12 && Distinct(p.criteria)
    && |p.checks| <= 32 && |p.artifacts| <= 16
    && forall c :: c in p.checks ==>
         c.source == FromContract && (c.id.ModelId? || c.id.ArtifactId?) && c.criterionIds <= AllIds(|p.criteria|)
  }

  const MINIMAL := Proposal(["goal"], [], [], Low, 0, {})

  type ValidProposal = p: Proposal | WellFormed(p) witness MINIMAL

  /** A reply of the compiler model: none, no valid proposal, or one (and whether its criteria were recovered). */
  datatype Reply = Unavailable | Malformed | Parsed(proposal: ValidProposal, recovered: bool)

  datatype Draft = Draft(proposal: Proposal, verdict: Verdict, recovered: bool)

  datatype ContractHash = Sha(draft: Draft)

  datatype Outcome = Raised | Undrafted | Compiled(draft: Draft, hash: Option<ContractHash>)

  datatype Setting = Setting(
    judgement: Judgement, discovery: Discovery, granted: set<string>,
    userChecks: seq<Option<Check>>, userCriteria: seq<string>)

  /** `q` is the reply `p` with duplicates joined, and the user's criteria and checks merged in. */
  ghost predicate Proposed(s: Setting, p: Proposal, q: Proposal) {
    exists checks, merged ::
      && Deduplicated(p.checks, |p.checks|, checks) && |checks| <= |p.checks|
      && CriteriaMerged(p.(checks := checks), Required(s.userCriteria), merged)
      && ChecksMerged(merged, s.userChecks, q)
  }

  method Propose(s: Setting, p: ValidProposal) returns (r: Option<Proposal>)
    ensures r.None? <==> None in ReadChecks(s.userChecks)
    ensures r.Some? ==> Proposed(s, p, r.value)
  {
    var checks := DeduplicateChecks(p.checks);
    var merged := MergeRequiredCriteria(p.(checks := checks), s.userCriteria);
    r := MergeRequiredChecks(merged, s.userChecks);
  }

  /** `q` is the proposal `p` with the checks that will run: gates added, redundant ones pruned. */
  ghost predicate Effective(s: Setting, p: Proposal, q: Proposal) {
    exists all ::
      && GatesAdded(s.judgement, p.checks, s.discovery.qualityChecks, |p.criteria|,
            PreviewsCover(s.judgement, p.criteria, s.discovery), all)
      && q == p.(checks := Pruned(s.judgement, all, p, s.discovery))
  }

  /** The draft comes from one of the replies, by the merges and the pruning. */
  ghost predicate DraftedFrom(s: Setting, reply: ValidProposal, q: Proposal) {
    exists p :: Proposed(s, reply, p) && Effective(s, p, q)
  }

  /** A run: at most three proposals, each judged once. */
  ghost predicate Outcomes(s: Setting, replies: nat -> Reply, outcome: Outcome) {
    outcome.Compiled? ==>
      && (outcome.hash == if outcome.draft.verdict.accepted then Some(Sha(outcome.draft)) else None)
      && (exists n :: 0 <= n < MAX_ATTEMPTS && replies(n).Parsed? && DraftedFrom(s, replies(n).proposal, outcome.draft.proposal))
      && (outcome.draft.verdict.accepted ==>
            forall issue :: !Holds(s.judgement, issue, outcome.draft.proposal, s.discovery, s.granted))
  }

  const REJECTED := Verdict(false, [], Some("What must be true when the task is finished?"), false)

  /** One judgement: the checks that will run, the validator's issues, and the verdict. */
  method Examine(s: Setting, proposal: Proposal, critique: Option<Critique>) returns (effective: Proposal, verdict: Verdict)
    ensures Effective(s, proposal, effective)
    ensures verdict.accepted ==> critique.Some? && forall issue :: !Holds(s.judgement, issue, effective, s.discovery, s.granted)
  {
    var checks := EffectiveChecks(s.judgement, proposal, s.discovery);
    effective := proposal.(checks := checks);
    if critique.None? { return effective, REJECTED; }
    var deterministic := DeterministicIssues(s.judgement, effective, s.discovery, s.granted);
    verdict := Judge(s.judgement, effective, s.discovery, critique.value, deterministic);
  }

  method Compile(s: Setting, replies: nat -> Reply, critiques: nat -> Option<Critique>) returns (outcome: Outcome)
    ensures outcome.Raised? <==> replies(0).Unavailable?
    ensures outcome.Undrafted? <==> replies(0).Malformed? || (replies(0).Parsed? && None in ReadChecks(s.userChecks))
    ensures Outcomes(s, replies, outcome)
    ensures outcome.Compiled? && outcome.hash.Some? ==> outcome.hash == Some(Sha(outcome.draft)) && Sound(s, outcome.draft.proposal)
  {
    var reply := replies(0);
    if reply.Unavailable? { return Raised; }
    if reply.Malformed? { return Undrafted; }
    var first := Propose(s, reply.proposal);
    if first.None? { return Undrafted; }
    outcome := Repair(s, replies, critiques, first.value);
    if outcome.hash.Some? {
      LockedContractIsSound(s, replies, outcome);
    }
  }

  lemma Concluded(s: Setting, replies: nat -> Reply, n: nat, proposal: Proposal, draft: Draft)
    requires n < MAX_ATTEMPTS && replies(n).Parsed?
    requires Proposed(s, replies(n).proposal, proposal) && Effective(s, proposal, draft.proposal)
    requires draft.verdict.accepted ==> forall issue :: !Holds(s.judgement, issue, draft.proposal, s.discovery, s.granted)
    ensures Outcomes(s, replies, Compiled(draft, if draft.verdict.accepted then Some(Sha(draft)) else None))
  {
    assert DraftedFrom(s, replies(n).proposal, draft.proposal);
  }

  /** The proposal comes from this reply. */
  ghost predicate Current(s: Setting, reply: Reply, p: Proposal) { reply.Parsed? && Proposed(s, reply.proposal, p) }

  /** One round: the draft it would return, and the state it would be stuck in. */
  method Round(s: Setting, ghost replies: nat -> Reply, ghost n: nat, proposal: Proposal, critique: Option<Critique>, recovered: bool)
    returns (draft: Draft)
    requires n < MAX_ATTEMPTS && Current(s, replies(n), proposal)
    ensures Outcomes(s, replies, Compiled(draft, if draft.verdict.accepted then Some(Sha(draft)) else None))
    ensures draft.recovered == recovered && (critique.None? ==> !draft.verdict.accepted)
  {
    var effective, verdict := Examine(s, proposal, critique);
    draft := Draft(effective, verdict, recovered);
    Concluded(s, replies, n, proposal, draft);
  }

  /** The user's checks were valid the first time, so a repaired proposal always takes them. */
  method ProposeAgain(s: Setting, reply: Reply) returns (q: Proposal)
    requires reply.Parsed? && None !in ReadChecks(s.userChecks)
    ensures Current(s, reply, q)
  {
    var proposed := Propose(s, reply.proposal);
    return proposed.value;
  }

  /** The bounded loop. */
  method Repair(s: Setting, replies: nat -> Reply, critiques: nat -> Option<Critique>, first: Proposal) returns (outcome: Outcome)
    requires Current(s, replies(0), first) && None !in ReadChecks(s.userChecks)
    ensures outcome.Compiled? && Outcomes(s, replies, outcome)
  {
    var proposal, recovered := first, replies(0).recovered;
    var seen: set<(Proposal, seq<Issue>)> := {};
    for attempt := 0 to MAX_ATTEMPTS
      invariant attempt < MAX_ATTEMPTS && Current(s, replies(attempt), proposal)
    {
      var draft := Round(s, replies, attempt, proposal, critiques(attempt), recovered);
      var hash := if draft.verdict.accepted then Some(Sha(draft)) else None;
      var state := (proposal, draft.verdict.issues);
      if critiques(attempt).None? || draft.verdict.accepted || attempt == MAX_ATTEMPTS - 1 || state in seen {
        return Compiled(draft, hash);
      }
      seen := seen + {state};
      var reply := replies(attempt + 1);
      if !reply.Parsed? { return Compiled(draft, hash); }
      recovered := recovered || reply.recovered;
      proposal := ProposeAgain(s, reply);
    }
    assert false;
  }

  // ---- What a hash means ------------------------------------------------------------------

  /** Some check is `c`, mapped to no fewer criteria. */
  ghost predicate Retains(checks: seq<Check>, c: Check) {
    exists k :: 0 <= k < |checks| && checks[k] == c.(criterionIds := checks[k].criterionIds) && c.criterionIds <= checks[k].criterionIds
  }

  ghost predicate Substantiated(checks: seq<Check>, n: nat) {
    exists c :: c in checks && c.source == FromContract && FormatId(n) in c.criterionIds
  }

  lemma UserCheckRetained(s: Setting, p: Proposal, q: Proposal, c: Check)
    requires Effective(s, p, q) && c in p.checks && c.id.UserId?
    ensures Retains(q.checks, c)
  {
    var covers := PreviewsCover(s.judgement, p.criteria, s.discovery);
    var all :| GatesAdded(s.judgement, p.checks, s.discovery.qualityChecks, |p.criteria|, covers, all)
               && q == p.(checks := Pruned(s.judgement, all, p, s.discovery));
    var k :| 0 <= k < |p.checks| && p.checks[k] == c;
    GatesKeepChecks(s.judgement, p.checks, s.discovery.qualityChecks, |p.criteria|, covers, all, k);
    PruningKeeps(s.judgement, all, p, s.discovery, all[k]);
    var at :| 0 <= at < |q.checks| && q.checks[at] == all[k];
  }

  lemma DraftKeepsUserInput(s: Setting, reply: ValidProposal, q: Proposal)
    requires DraftedFrom(s, reply, q)
    ensures None !in ReadChecks(s.userChecks)
    ensures Required(s.userCriteria) <= q.criteria
    ensures forall i :: 0 <= i < |ReadChecks(s.userChecks)| ==> Retains(q.checks, UserCheck(s.userChecks[i].value, i + 1))
  {
    var p :| Proposed(s, reply, p) && Effective(s, p, q);
    var checks, merged :|
      && Deduplicated(reply.checks, |reply.checks|, checks) && |checks| <= |reply.checks|
      && CriteriaMerged(reply.(checks := checks), Required(s.userCriteria), merged)
      && ChecksMerged(merged, s.userChecks, p);
    MergedDistinct(reply.criteria, s.userCriteria);
    MergedChecksRetained(s, merged, p, q);
  }

  lemma MergedChecksRetained(s: Setting, merged: Proposal, p: Proposal, q: Proposal)
    requires ChecksMerged(merged, s.userChecks, p) && Effective(s, p, q)
    ensures forall i :: 0 <= i < |ReadChecks(s.userChecks)| ==> Retains(q.checks, UserCheck(s.userChecks[i].value, i + 1))
  {
    forall i | 0 <= i < |ReadChecks(s.userChecks)|
      ensures Retains(q.checks, UserCheck(s.userChecks[i].value, i + 1))
    {
      assert p.checks[|merged.checks| + i] in p.checks;
      UserCheckRetained(s, p, q, UserCheck(s.userChecks[i].value, i + 1));
    }
  }

  lemma NoneMissing(a: set<string>, b: set<string>)
    requires a - b == {}
    ensures a <= b
  {
    forall x | x in a ensures x in b {
      assert x in b || x in a - b;
    }
  }

  lemma NoIssueMeansCovered(s: Setting, p: Proposal)
    requires forall issue :: !Holds(s.judgement, issue, p, s.discovery, s.granted)
    ensures forall n :: 1 <= n <= |p.criteria| ==> Substantiated(p.checks, n)
    ensures p.checks != [] && |p.criteria| <= MAX_CRITERIA && p.risk == Low && p.confidence >= MIN_CONFIDENCE && p.authority <= s.granted
    ensures (s.discovery.qualityChecks != [] || exists c :: c in p.checks && RunsCommand(c)) ==> EXEC in s.granted
  {
    var j, d, g := s.judgement, s.discovery, s.granted;
    assert !Holds(j, NoChecks, p, d, g) && !Holds(j, RiskNotLow(p.risk), p, d, g) && !Holds(j, QualityGatesRequireExec, p, d, g);
    assert !Holds(j, LowConfidence(p.confidence), p, d, g) && !Holds(j, TooManyCriteria(|p.criteria|), p, d, g);
    assert !Holds(j, AuthorityNotGranted(p.authority - g), p, d, g);
    NoneMissing(p.authority, g);
    assert !Holds(j, Uncovered(AllIds(|p.criteria|) - Covered(p.checks)), p, d, g);
    var expected, covered := AllIds(|p.criteria|), Covered(p.checks);
    assert expected <= covered by { NoneMissing(expected, covered); }
    forall n | 1 <= n <= |p.criteria| ensures Substantiated(p.checks, n) {
      assert FormatId(n) in expected;
    }
    if c :| c in p.checks && RunsCommand(c) {
      assert !Holds(j, RequiresExec(c.id), p, d, g);
    }
  }

  /**
   What a lock promises: every criterion is substantiated by a contract check, the
   required criteria come first, every check of the user that was read is kept, no
   deterministic issue holds, and the draft is within the automatic limits.
   */
  ghost predicate Sound(s: Setting, p: Proposal) {
    && (forall n :: 1 <= n <= |p.criteria| ==> Substantiated(p.checks, n))
    && Required(s.userCriteria) <= p.criteria
    && (forall i :: 0 <= i < |ReadChecks(s.userChecks)| ==>
          s.userChecks[i].Some? && Retains(p.checks, UserCheck(s.userChecks[i].value, i + 1)))
    && (forall issue :: !Holds(s.judgement, issue, p, s.discovery, s.granted))
    && |p.criteria| <= MAX_CRITERIA && p.risk == Low && p.confidence >= MIN_CONFIDENCE && p.authority <= s.granted
  }

  /** A hash is issued only for the returned draft, and then the draft is sound. */
  lemma LockedContractIsSound(s: Setting, replies: nat -> Reply, outcome: Outcome)
    requires Outcomes(s, replies, outcome) && outcome.Compiled? && outcome.hash.Some?
    ensures outcome.hash == Some(Sha(outcome.draft)) && Sound(s, outcome.draft.proposal)
  {
    var n :| 0 <= n < MAX_ATTEMPTS && replies(n).Parsed? && DraftedFrom(s, replies(n).proposal, outcome.draft.proposal);
    UnobjectedIsSound(s, replies(n).proposal, outcome.draft.proposal);
  }

  lemma UnobjectedIsSound(s: Setting, reply: ValidProposal, q: Proposal)
    requires DraftedFrom(s, reply, q) && forall issue :: !Holds(s.judgement, issue, q, s.discovery, s.granted)
    ensures Sound(s, q)
  {
    DraftKeepsUserInput(s, reply, q);
    forall i | 0 <= i < |ReadChecks(s.userChecks)| ensures s.userChecks[i].Some? {
      assert s.userChecks[i] == ReadChecks(s.userChecks)[i];
    }
    NoIssueMeansCovered(s, q);
  }

  // ---- How many checks a contract holds -------------------------------------------------

  /** Every required check is among the checks, under the id of its position. */
  ghost predicate RetainsAll(checks: seq<Check>, required: seq<Option<Check>>) {
    forall i :: 0 <= i < |required| ==> required[i].Some? && Retains(checks, UserCheck(required[i].value, i + 1))
  }

  /** A draft retains all the checks it is required to exactly if there are at most forty. */
  lemma RequiredChecksRetainedIff(s: Setting, reply: ValidProposal, q: Proposal)
    requires DraftedFrom(s, reply, q) && NoneIsUsers(s.discovery.qualityChecks)
    ensures RetainsAll(q.checks, s.userChecks) <==> |s.userChecks| <= MAX_USER_CHECKS
  {
    if |s.userChecks| <= MAX_USER_CHECKS {
      DraftKeepsUserInput(s, reply, q);
      assert forall i :: 0 <= i < |s.userChecks| ==> s.userChecks[i] in s.userChecks;
    } else if s.userChecks[MAX_USER_CHECKS].Some? {
      UsersInDraft(s, reply, q);
      assert forall k :: 0 <= k < |q.checks| ==> q.checks[k] in q.checks;
      assert !Retains(q.checks, UserCheck(s.userChecks[MAX_USER_CHECKS].value, MAX_USER_CHECKS + 1));
    }
  }

  /** An implementation fix retains every contract check of the delivery it revises exactly if that has at most forty. */
  lemma FixRevisionRetainsAllIff(prior: seq<Check>, s: Setting, reply: ValidProposal, q: Proposal)
    requires s.userChecks == FixRevisionChecks(prior)
    requires DraftedFrom(s, reply, q) && NoneIsUsers(s.discovery.qualityChecks)
    ensures RetainsAll(q.checks, FixRevisionChecks(prior)) <==> |Filter(IsContract, prior)| <= MAX_USER_CHECKS
  {
    RequiredChecksRetainedIff(s, reply, q);
  }

  /** What is merged before the user's checks is the model's. */
  lemma MergedAreOthers(reply: ValidProposal, checks: seq<Check>, texts: seq<string>, merged: Proposal)
    requires Deduplicated(reply.checks, |reply.checks|, checks) && CriteriaMerged(reply.(checks := checks), texts, merged)
    ensures forall c :: c in merged.checks ==> IsOther(c)
  {
    forall c | c in checks ensures IsOther(c) {
      assert Gathers(reply.checks, |reply.checks|, c);
    }
    forall c | c in merged.checks ensures IsOther(c) {
      var k :| 0 <= k < |merged.checks| && merged.checks[k] == c;
      assert checks[k] in checks && c.id == checks[k].id && c.source == checks[k].source;
    }
  }

  /** A proposal is what the model's part of it became, and the user's checks behind that. */
  lemma ModelsPart(s: Setting, reply: ValidProposal, p: Proposal) returns (merged: Proposal)
    requires Proposed(s, reply, p)
    ensures ChecksMerged(merged, s.userChecks, p) && forall c :: c in merged.checks ==> IsOther(c)
  {
    var checks, m :|
      && Deduplicated(reply.checks, |reply.checks|, checks) && |checks| <= |reply.checks|
      && CriteriaMerged(reply.(checks := checks), Required(s.userCriteria), m)
      && ChecksMerged(m, s.userChecks, p);
    MergedAreOthers(reply, checks, Required(s.userCriteria), m);
    merged := m;
  }

  /** The user's checks in a proposal are those that were read, each under its own position. */
  lemma UsersAreMerged(merged: Proposal, required: seq<Option<Check>>, p: Proposal)
    requires ChecksMerged(merged, required, p) && forall c :: c in merged.checks ==> IsOther(c)
    ensures |Filter(IsUsers, p.checks)| == |ReadChecks(required)| && UsersAreContract(p.checks)
    ensures forall c :: c in p.checks && IsUsers(c) ==> 1 <= c.id.n <= MAX_USER_CHECKS
  {
    var users := p.checks[|merged.checks|..];
    assert p.checks == merged.checks + users;
    forall c | c in users ensures IsUsers(c) && IsContract(c) && 1 <= c.id.n <= MAX_USER_CHECKS {
      var i :| 0 <= i < |users| && users[i] == c;
      assert p.checks[|merged.checks| + i] == UserCheck(required[i].value, i + 1);
    }
    FilterConcat(IsUsers, merged.checks, users);
    FilterNone(IsUsers, merged.checks);
    FilterAll(IsUsers, users);
  }

  lemma UsersInDraft(s: Setting, reply: ValidProposal, q: Proposal)
    requires DraftedFrom(s, reply, q) && NoneIsUsers(s.discovery.qualityChecks)
    ensures |Filter(IsUsers, q.checks)| == |ReadChecks(s.userChecks)| && UsersAreContract(q.checks)
    ensures forall c :: c in q.checks && IsUsers(c) ==> 1 <= c.id.n <= MAX_USER_CHECKS
  {
    var p :| Proposed(s, reply, p) && Effective(s, p, q);
    var merged := ModelsPart(s, reply, p);
    UsersAreMerged(merged, s.userChecks, p);
    var covers := PreviewsCover(s.judgement, p.criteria, s.discovery);
    var all :| GatesAdded(s.judgement, p.checks, s.discovery.qualityChecks, |p.criteria|, covers, all)
               && q == p.(checks := Pruned(s.judgement, all, p, s.discovery));
    GatesKeepUsers(s.judgement, p.checks, s.discovery.qualityChecks, |p.criteria|, covers, all);
    PruningKeepsUsers(s.judgement, all, p, s.discovery);
  }

  /** The contract checks of a draft are the user's checks that were read and the others: none is lost or made up. */
  lemma ContractChecksOfADraft(s: Setting, reply: ValidProposal, q: Proposal)
    requires DraftedFrom(s, reply, q) && NoneIsUsers(s.discovery.qualityChecks)
    ensures |Filter(IsContract, q.checks)| == |ReadChecks(s.userChecks)| + |Filter(IsOther, q.checks)|
  {
    UsersInDraft(s, reply, q);
    ContractSplits(q.checks);
  }

  lemma {:induction false} ContractSplits(checks: seq<Check>)
    requires UsersAreContract(checks)
    ensures |Filter(IsContract, checks)| == |Filter(IsUsers, checks)| + |Filter(IsOther, checks)|
  {
    if checks != [] {
      assert checks == Front(checks) + [Last(checks)];
      ContractSplits(Front(checks));
    }
  }

  // ---- A full publication ---------------------------------------------------------------

  /** What a publication may ask for: at most eight commands and thirty-two different files. */
  ghost predicate Publishable(commands: seq<string>, files: seq<string>) {
    && |commands| <= 8 && |files| <= 32 && Distinct(files)
    && (forall c :: c in commands ==> c != "" && Strip(c) == c) && (forall f :: f in files ==> f != "" && Strip(f) == f)
  }

  function CommandCheck(id: CheckId, command: string, criterionIds: set<string>): Check {
    Check(id, Command, command, "", "", Code(0), None, criterionIds, FromContract)
  }

  function FileCheck(id: CheckId, path: string): Check {
    Check(id, FileExists, "", path, "", Code(0), None, {}, FromContract)
  }

  /** The required checks of a published task: its commands, then its files. */
  function PublishedChecks(commands: seq<string>, files: seq<string>): (r: seq<Option<Check>>)
    ensures |r| == |commands| + |files| && None !in r
  {
    seq(|commands|, i requires 0 <= i < |commands| => Some(CommandCheck(ModelId(i + 1), commands[i], {})))
    + seq(|files|, i requires 0 <= i < |files| => Some(FileCheck(ArtifactId(i + 1), files[i])))
  }

  /** A publication itself never has a check too many. */
  lemma PublicationRetainsAll(commands: seq<string>, files: seq<string>, s: Setting, reply: ValidProposal, q: Proposal)
    requires Publishable(commands, files) && s.userChecks == PublishedChecks(commands, files)
    requires DraftedFrom(s, reply, q) && NoneIsUsers(s.discovery.qualityChecks)
    ensures RetainsAll(q.checks, s.userChecks)
  {
    RequiredChecksRetainedIff(s, reply, q);
  }

  ghost predicate Full(commands: seq<string>, files: seq<string>) {
    Publishable(commands, files) && |commands| == 8 && |files| == 32
  }

  /** The contract of a full publication holds more than forty exactly if it has one that is not the user's. */
  lemma FullPublicationOverflowsIff(commands: seq<string>, files: seq<string>, s: Setting, reply: ValidProposal, q: Proposal)
    requires Full(commands, files) && s.userChecks == PublishedChecks(commands, files)
    requires DraftedFrom(s, reply, q) && NoneIsUsers(s.discovery.qualityChecks)
    ensures |Filter(IsContract, q.checks)| > MAX_USER_CHECKS <==> exists c :: c in q.checks && IsOther(c)
  {
    ContractChecksOfADraft(s, reply, q);
    if c :| c in q.checks && IsOther(c) {
      FilterMembers(IsOther, q.checks, c);
    } else {
      FilterNone(IsOther, q.checks);
    }
  }

  /** Without discovered gates every locked contract has one: published checks are mapped to no criterion. */
  lemma LockedFullPublicationOverflows(commands: seq<string>, files: seq<string>, s: Setting, reply: ValidProposal, q: Proposal)
    requires Full(commands, files) && s.userChecks == PublishedChecks(commands, files) && s.discovery.qualityChecks == []
    requires DraftedFrom(s, reply, q) && Sound(s, q)
    ensures |Filter(IsContract, q.checks)| > MAX_USER_CHECKS
    ensures DistinctDefinitions(q.checks) ==> |Filter(IsContract, Completed(q.checks, AllIds(|q.criteria|)))| > MAX_USER_CHECKS
  {
    if DistinctDefinitions(q.checks) {
      CompletedKeepsDistinct(q.checks, AllIds(|q.criteria|));
    }
    var p :| Proposed(s, reply, p) && Effective(s, p, q);
    MergedSizes(s, reply, p);
    assert Substantiated(q.checks, 1);
    var c :| c in q.checks && c.source == FromContract && FormatId(1) in c.criterionIds;
    PrunedAreProposed(s, p, q, c);
    var merged := ModelsPart(s, reply, p);
    MappedIsOther(commands, files, merged, p, c);
    FullPublicationOverflowsIff(commands, files, s, reply, q);
  }

  lemma PrunedAreProposed(s: Setting, p: Proposal, q: Proposal, c: Check)
    requires Effective(s, p, q) && s.discovery.qualityChecks == [] && c in q.checks
    ensures c in p.checks
  {
    FilterMembers(Kept(s.judgement, p, s.discovery), p.checks, c);
  }

  lemma MappedIsOther(commands: seq<string>, files: seq<string>, merged: Proposal, p: Proposal, c: Check)
    requires ChecksMerged(merged, PublishedChecks(commands, files), p) && forall x :: x in merged.checks ==> IsOther(x)
    requires c in p.checks && c.criterionIds != {}
    ensures IsOther(c)
  {
    var required, n := ReadChecks(PublishedChecks(commands, files)), |merged.checks|;
    forall k | n <= k < |p.checks| ensures p.checks[k].criterionIds == {} {
      assert p.checks[n + (k - n)] == UserCheck(required[k - n].value, k - n + 1);
    }
    var k :| 0 <= k < |p.checks| && p.checks[k] == c;
    assert merged.checks[k] == c;
  }

  // ---- An input: the contract of a full publication, locked ---------------------------------

  const EASY := Judgement(
    (_: string) => false, (_: string) => false, (_: seq<string>, _: Discovery) => false, (_: string) => false,
    (_: Check, _: set<string>) => [], (_: string) => {}, (_: string, _: string) => false,
    (_: string, _: Proposal, _: Discovery) => false, (_: string) => false, (_: string) => false, (_: seq<Issue>) => "")

  const COMMAND := "make check"

  const ANSWER: ValidProposal := Proposal(["goal"], [CommandCheck(ModelId(1), COMMAND, {FormatId(1)})], [], Low, 100, {})

  function Published(commands: seq<string>, files: seq<string>): Setting {
    Setting(EASY, Discovery([], [], {}), {EXEC}, PublishedChecks(commands, files), [])
  }

  /** The draft of the answer: the published checks behind the model's one. */
  function PublishedDraft(commands: seq<string>, files: seq<string>): (q: Proposal)
    requires Publishable(commands, files)
    ensures |q.checks| == 1 + |commands| + |files|
  {
    var required := PublishedChecks(commands, files);
    ANSWER.(checks := ANSWER.checks + seq(|required|, i requires 0 <= i < |required| => UserCheck(required[i].value, i + 1)),
            artifacts := files)
  }

  /** The delivery of the draft: its checks when the loop begins. */
  function PublishedDelivery(commands: seq<string>, files: seq<string>): seq<Check>
    requires Publishable(commands, files)
  {
    Completed(PublishedDraft(commands, files).checks, AllIds(1))
  }

  /**
   Such a delivery exists: one answer, no issue, forty-one contract checks, all different;
   and whatever the models answer to its fix revision, a check is dropped.
   */
  lemma FullPublicationLosesACheck(commands: seq<string>, files: seq<string>, s: Setting, reply: ValidProposal, q: Proposal)
    requires Full(commands, files) && Distinct(commands) && COMMAND !in commands
    requires s.userChecks == FixRevisionChecks(PublishedDelivery(commands, files))
    requires DraftedFrom(s, reply, q) && NoneIsUsers(s.discovery.qualityChecks)
    ensures var draft := PublishedDraft(commands, files);
            DraftedFrom(Published(commands, files), ANSWER, draft) && Sound(Published(commands, files), draft)
    ensures !RetainsAll(q.checks, s.userChecks)
  {
    PublishedIsDrafted(commands, files);
    PublishedIsSound(commands, files);
    PublishedAreDifferent(commands, files);
    LockedFullPublicationOverflows(commands, files, Published(commands, files), ANSWER, PublishedDraft(commands, files));
    FixRevisionRetainsAllIff(PublishedDelivery(commands, files), s, reply, q);
  }

  lemma PublishedAreDifferent(commands: seq<string>, files: seq<string>)
    requires Publishable(commands, files) && Distinct(commands) && COMMAND !in commands
    ensures DistinctDefinitions(PublishedDraft(commands, files).checks)
  {
    var checks, n := PublishedDraft(commands, files).checks, |commands|;
    forall k | 0 < k < |checks|
      ensures k <= n ==> checks[k].kind == Command && checks[k].command == commands[k - 1] && checks[k].command in commands
      ensures k > n ==> checks[k].kind == FileExists && checks[k].path == files[k - n - 1]
    {
      assert checks[k] == UserCheck(PublishedChecks(commands, files)[k - 1].value, k);
    }
  }

  lemma PublishedIsDrafted(commands: seq<string>, files: seq<string>)
    requires Publishable(commands, files)
    ensures DraftedFrom(Published(commands, files), ANSWER, PublishedDraft(commands, files))
  {
    var s, draft := Published(commands, files), PublishedDraft(commands, files);
    PublishedIsProposed(commands, files);
    assert GatesAdded(EASY, draft.checks, [], 1, PreviewsCover(EASY, draft.criteria, s.discovery), draft.checks);
    assert Effective(s, draft, draft);
  }

  lemma PublishedIsProposed(commands: seq<string>, files: seq<string>)
    requires Publishable(commands, files)
    ensures Proposed(Published(commands, files), ANSWER, PublishedDraft(commands, files))
  {
    OneCheckIsUnique(ANSWER.checks);
    PublishedAreMerged(commands, files);
    NothingRequired(Published(commands, files), ANSWER, PublishedDraft(commands, files));
  }

  lemma NothingRequired(s: Setting, reply: ValidProposal, p: Proposal)
    requires s.userCriteria == [] && Deduplicated(reply.checks, |reply.checks|, reply.checks) && ChecksMerged(reply, s.userChecks, p)
    ensures Proposed(s, reply, p)
  {
    assert reply.(checks := reply.checks) == reply;
    assert Required([]) == [];
  }

  lemma PublishedAreMerged(commands: seq<string>, files: seq<string>)
    requires Publishable(commands, files)
    ensures ChecksMerged(ANSWER, PublishedChecks(commands, files), PublishedDraft(commands, files))
  {
    var required, q := PublishedChecks(commands, files), PublishedDraft(commands, files);
    assert ReadChecks(required) == required;
    forall i | 0 <= i < |required|
      ensures required[i].Some? && q.checks[1 + i] == UserCheck(required[i].value, i + 1)
      ensures required[i].value.kind == FileExists ==> required[i].value.path in q.artifacts
    {
      if i >= |commands| {
        assert required[i].value.path == files[i - |commands|];
      }
    }
  }

  lemma PublishedIsSound(commands: seq<string>, files: seq<string>)
    requires Publishable(commands, files)
    ensures Sound(Published(commands, files), PublishedDraft(commands, files))
  {
    PublishedIsDrafted(commands, files);
    NoIssueOfPublished(commands, files);
    UnobjectedIsSound(Published(commands, files), ANSWER, PublishedDraft(commands, files));
  }

  lemma NoIssueOfPublished(commands: seq<string>, files: seq<string>)
    requires Publishable(commands, files)
    ensures forall issue :: !Holds(EASY, issue, PublishedDraft(commands, files), Discovery([], [], {}), {EXEC})
  {
    var draft := PublishedDraft(commands, files);
    assert draft.checks[0] == ANSWER.checks[0] && draft.checks[0] in draft.checks;
    assert FormatId(1) in Covered(draft.checks);
    assert AllIds(1) - Covered(draft.checks) == {};
  }

  lemma OneCheckIsUnique(checks: seq<Check>)
    requires |checks| == 1
    ensures Deduplicated(checks, 1, checks)
  {
    assert Identities(checks[..0]) == [] == Identities([]);
    FirstOccurrenceAppended(checks, 0, []);
    assert [] + [checks[0]] == checks;
  }

  lemma {:induction false} FilterLength<T>(keep: T -> bool, checks: seq<T>)
    ensures |Filter(keep, checks)| <= |checks|
  {
    if checks != [] {
      FilterLength(keep, Front(checks));
    }
  }

  lemma MergedSizes(s: Setting, reply: ValidProposal, p: Proposal)
    requires Proposed(s, reply, p)
    ensures 1 <= |p.criteria| <= 12 && |p.checks| <= |reply.checks| + MAX_USER_CHECKS && |p.artifacts| <= |reply.artifacts| + MAX_USER_CHECKS
  {
    RequiredDistinct(s.userCriteria);
  }

  /** A draft never overflows the limits its own schema sets, so building it cannot raise. */
  lemma DraftFitsItsSchema(s: Setting, reply: ValidProposal, q: Proposal)
    requires DraftedFrom(s, reply, q) && |s.discovery.qualityChecks| <= 16
    ensures 1 <= |q.criteria| <= 12 && |q.checks| <= 96 && |q.artifacts| <= 64
  {
    var p :| Proposed(s, reply, p) && Effective(s, p, q);
    MergedSizes(s, reply, p);
    EffectiveSizes(s, p, q);
  }

  lemma EffectiveSizes(s: Setting, p: Proposal, q: Proposal)
    requires Effective(s, p, q)
    ensures |q.checks| <= |p.checks| + |s.discovery.qualityChecks| && q.criteria == p.criteria && q.artifacts == p.artifacts
  {
    var covers := PreviewsCover(s.judgement, p.criteria, s.discovery);
    var all :| GatesAdded(s.judgement, p.checks, s.discovery.qualityChecks, |p.criteria|, covers, all)
               && q == p.(checks := Pruned(s.judgement, all, p, s.discovery));
    GatesLength(s.judgement, p.checks, s.discovery.qualityChecks, |p.criteria|, covers, all);
    FilterLength(Kept(s.judgement, p, s.discovery), all);
  }

  lemma {:induction false} GatesLength(j: Judgement, before: seq<Check>, gates: seq<Check>, count: nat, covers: bool, r: seq<Check>)
    requires GatesAdded(j, before, gates, count, covers, r)
    ensures |r| <= |before| + |gates|
  {
    if gates != [] {
      var mid :| GatesAdded(j, before, Front(gates), count, covers, mid) && GateAdded(j, mid, Last(gates), count, covers, r);
      GatesLength(j, before, Front(gates), count, covers, mid);
    }
  }
}
