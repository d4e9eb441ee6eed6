/**
 Compilation of an acceptance contract: merging, renumbering, adding discovered gates,
 pruning, and the bounded repair loop around two models.

 What the two models answer is arbitrary input. Regular expressions and wording tests
 are the functions of a `Judgement`, arbitrary as well.
 */
module Contract {
  import opened Basics
  import Decimal

  datatype CheckKind = Command | FileExists | FileContains
  datatype CheckSource = FromContract | FromSystem
  datatype CheckId = ModelId(n: nat) | ArtifactId(n: nat) | UserId(n: nat) | DiscoveredTestId(n: nat) | SystemId(name: string)
  datatype Exit = Code(code: int) | Nonzero

  datatype Check = Check(
    id: CheckId, kind: CheckKind, command: string, path: string, text: string,
    exit: Exit, stdout: Option<string>, criterionIds: set<string>, source: CheckSource)

  datatype Risk = Low | Medium | High

  datatype Proposal = Proposal(
    criteria: seq<string>, checks: seq<Check>, artifacts: seq<string>,
    risk: Risk, confidence: int, authority: set<string>)

  datatype Discovery = Discovery(testFiles: seq<string>, qualityChecks: seq<Check>, previewed: set<string>)

  /** The tests on wording, commands and paths that the source writes as regular expressions. */
  datatype Judgement = Judgement(
    isTestCommand: string -> bool,
    isTestPath: string -> bool,
    previewsCover: (seq<string>, Discovery) -> bool,
    tautological: string -> bool,
    commandFaults: (Check, set<string>) -> seq<string>,
    stderrMarkers: string -> set<string>,
    mentions: (string, string) -> bool,
    advisory: (string, Proposal, Discovery) -> bool,
    internalQuestion: string -> bool,
    genericQuestion: string -> bool,
    questionFor: seq<Issue> -> string)

  datatype Issue =
    | RiskNotLow(risk: Risk)
    | LowConfidence(confidence: int)
    | TooManyCriteria(count: nat)
    | Tautology(criterion: nat)
    | Uncovered(missing: set<string>)
    | NoChecks
    | CommandFault(id: CheckId, fault: string)
    | RequiresExec(id: CheckId)
    | StderrUnasserted(criterion: nat)
    | QualityGatesRequireExec
    | AuthorityNotGranted(missing: set<string>)
    | FromCritic(text: string)

  const EXEC := "exec"
  const MAX_CRITERIA := 8
  const MAX_USER_CHECKS := 40
  const MAX_ATTEMPTS := 3
  const MIN_CONFIDENCE := 80

  // ---- Criterion ids ------------------------------------------------------------

  const PREFIX := "criterion-"

  function FormatId(n: nat): string { PREFIX + Decimal.Pad(Decimal.Print(n), 3) }

  function ParseId(id: string): Option<nat> {
    if |id| < |PREFIX| || id[..|PREFIX|] != PREFIX then None else Decimal.Read(id[|PREFIX|..])
  }

  lemma ParseFormat(n: nat)
    ensures ParseId(FormatId(n)) == Some(n)
  {
    Decimal.ReadPrint(n);
    Decimal.ReadPad(Decimal.Print(n), 3);
    assert FormatId(n)[..|PREFIX|] == PREFIX && FormatId(n)[|PREFIX|..] == Decimal.Pad(Decimal.Print(n), 3);
  }

  lemma FormatInjective(m: nat, n: nat)
    requires FormatId(m) == FormatId(n)
    ensures m == n
  {
    ParseFormat(m);
    ParseFormat(n);
  }

  /** The ids of a contract with `count` criteria. */
  function AllIds(count: nat): set<string> { set i | 1 <= i <= count :: FormatId(i) }

  // ---- Merging the required criteria ------------------------------------------------

  function Required(texts: seq<string>): seq<string> {
    var stripped := Dedupe(Filter(t => t != "", seq(|texts|, i requires 0 <= i < |texts| => Strip(texts[i]))));
    if |stripped| <= 12 then stripped else stripped[..12]
  }

  function MergedCriteria(prior: seq<string>, required: seq<string>): seq<string> {
    var extras := Filter(c => c !in required, prior);
    var room := if |required| <= MAX_CRITERIA then MAX_CRITERIA - |required| else 0;
    required + if |extras| <= room then extras else extras[..room]
  }

  /** The id `id` denoted the text `text` under the criteria `criteria`. */
  predicate Denotes(id: string, criteria: seq<string>, text: string) {
    match ParseId(id)
    case None => false
    case Some(n) => 1 <= n <= |criteria| && criteria[n - 1] == text
  }

  /** The new id set of a check: every surviving text it pointed at, and the last required criterion. */
  ghost predicate Remapped(ids0: set<string>, prior: seq<string>, criteria: seq<string>, required: nat, mapped: set<string>) {
    forall x :: x in mapped <==>
      || (ids0 != {} && x == FormatId(required))
      || (exists p :: 1 <= p <= |criteria| && x == FormatId(p) && PointsAt(ids0, prior, criteria[p - 1]))
  }

  ghost predicate PointsAt(ids: set<string>, criteria: seq<string>, text: string) {
    exists id :: id in ids && Denotes(id, criteria, text)
  }

  /** The dictionary of new positions. */
  method Positions(criteria: seq<string>) returns (positions: map<string, nat>)
    requires Distinct(criteria)
    ensures forall t :: t in positions <==> t in criteria
    ensures forall t :: t in positions ==> 1 <= positions[t] <= |criteria| && criteria[positions[t] - 1] == t
  {
    positions := map[];
    for i := 0 to |criteria|
      invariant forall t :: t in positions <==> t in criteria[..i]
      invariant forall t :: t in positions ==> 1 <= positions[t] <= i && criteria[positions[t] - 1] == t
    {
      positions := positions[criteria[i] := i + 1];
    }
  }

  method RemapIds(ids0: set<string>, prior: seq<string>, criteria: seq<string>, required: nat, positions: map<string, nat>)
    returns (mapped: set<string>)
    requires Distinct(criteria)
    requires forall t :: t in positions <==> t in criteria
    requires forall t :: t in positions ==> 1 <= positions[t] <= |criteria| && criteria[positions[t] - 1] == t
    ensures Remapped(ids0, prior, criteria, required, mapped)
  {
    mapped := {};
    var todo := ids0;
    while todo != {}
      invariant todo <= ids0
      invariant forall x :: x in mapped <==>
        exists p :: 1 <= p <= |criteria| && x == FormatId(p) && PointsAt(ids0 - todo, prior, criteria[p - 1])
    {
      var id :| id in todo;
      ghost var before := ids0 - todo;
      todo := todo - {id};
      assert ids0 - todo == before + {id};
      assert forall t :: PointsAt(ids0 - todo, prior, t) <==> PointsAt(before, prior, t) || Denotes(id, prior, t);
      var n := ParseId(id);
      if n.Some? && 1 <= n.value <= |prior| && prior[n.value - 1] in positions {
        mapped := mapped + {FormatId(positions[prior[n.value - 1]])};
      }
    }
    assert ids0 - todo == ids0;
    if ids0 != {} {
      mapped := mapped + {FormatId(required)};
    }
  }

  ghost predicate CriteriaMerged(p: Proposal, required: seq<string>, q: Proposal) {
    if required == [] then q == p
    else
      && q == p.(criteria := MergedCriteria(p.criteria, required), checks := q.checks)
      && |q.checks| == |p.checks|
      && forall i :: 0 <= i < |p.checks| ==>
           && q.checks[i] == p.checks[i].(criterionIds := q.checks[i].criterionIds)
           && Remapped(p.checks[i].criterionIds, p.criteria, q.criteria, |required|, q.checks[i].criterionIds)
  }

  method MergeRequiredCriteria(p: Proposal, texts: seq<string>) returns (q: Proposal)
    requires Distinct(p.criteria)
    ensures CriteriaMerged(p, Required(texts), q)
  {
    var required := Required(texts);
    if required == [] { return p; }
    var criteria := MergedCriteria(p.criteria, required);
    MergedDistinct(p.criteria, texts);
    var positions := Positions(criteria);
    var remapped: seq<Check> := [];
    for i := 0 to |p.checks|
      invariant |remapped| == i
      invariant forall k :: 0 <= k < i ==>
        && remapped[k] == p.checks[k].(criterionIds := remapped[k].criterionIds)
        && Remapped(p.checks[k].criterionIds, p.criteria, criteria, |required|, remapped[k].criterionIds)
    {
      var mapped := RemapIds(p.checks[i].criterionIds, p.criteria, criteria, |required|, positions);
      remapped := remapped + [p.checks[i].(criterionIds := mapped)];
    }
    return p.(criteria := criteria, checks := remapped);
  }

  lemma FilterDistinct(keep: string -> bool, s: seq<string>)
    requires Distinct(s)
    ensures Distinct(Filter(keep, s))
  {
    if s != [] {
      assert Distinct(Front(s));
      FilterDistinct(keep, Front(s));
      assert Last(s) !in Front(s);
      FilterMembers(keep, Front(s), Last(s));
    }
  }

  lemma RequiredDistinct(texts: seq<string>)
    ensures Distinct(Required(texts)) && |Required(texts)| <= 12
  {
  }

  lemma DistinctConcat<T(!new)>(a: seq<T>, b: seq<T>)
    requires Distinct(a) && Distinct(b) && forall x :: x in b ==> x !in a
    ensures Distinct(a + b)
  {
    var ab := a + b;
    forall i, j | 0 <= i < j < |ab| ensures ab[i] != ab[j] {
      if i < |a| <= j {
        assert ab[i] in a && ab[j] in b;
      }
    }
  }

  lemma MergedDistinct(prior: seq<string>, texts: seq<string>)
    requires Distinct(prior)
    ensures Distinct(MergedCriteria(prior, Required(texts)))
    ensures Required(texts) <= MergedCriteria(prior, Required(texts))
  {
    var required := Required(texts);
    RequiredDistinct(texts);
    var extras := Filter(c => c !in required, prior);
    FilterDistinct(c => c !in required, prior);
    var room := if |required| <= MAX_CRITERIA then MAX_CRITERIA - |required| else 0;
    var kept := if |extras| <= room then extras else extras[..room];
    forall x | x in kept ensures x !in required {
      assert x in extras;
      FilterMembers(c => c !in required, prior, x);
    }
    DistinctConcat(required, kept);
  }

  lemma NewIdsInRange(ids0: set<string>, prior: seq<string>, criteria: seq<string>, required: nat, ids: set<string>)
    requires Remapped(ids0, prior, criteria, required, ids) && 1 <= required <= |criteria|
    ensures ids <= AllIds(|criteria|)
  {
  }

  lemma NewPointersAreOld(ids0: set<string>, prior: seq<string>, criteria: seq<string>, required: nat, ids: set<string>, text: string)
    requires Remapped(ids0, prior, criteria, required, ids) && 1 <= required <= |criteria|
    requires PointsAt(ids, criteria, text)
    ensures PointsAt(ids0, prior, text) || (ids0 != {} && text == criteria[required - 1])
  {
    var id :| id in ids && Denotes(id, criteria, text);
    if ids0 != {} && id == FormatId(required) {
      ParseFormat(required);
    } else {
      var k :| 1 <= k <= |criteria| && id == FormatId(k) && PointsAt(ids0, prior, criteria[k - 1]);
      ParseFormat(k);
    }
  }

  lemma OldPointersAreNew(ids0: set<string>, prior: seq<string>, criteria: seq<string>, required: nat, ids: set<string>, text: string)
    requires Remapped(ids0, prior, criteria, required, ids) && 1 <= required <= |criteria|
    requires text in criteria
    requires PointsAt(ids0, prior, text) || (ids0 != {} && text == criteria[required - 1])
    ensures PointsAt(ids, criteria, text)
  {
    var at := if PointsAt(ids0, prior, text) then var k :| 0 <= k < |criteria| && criteria[k] == text; k + 1 else required;
    ParseFormat(at);
    assert FormatId(at) in ids && Denotes(FormatId(at), criteria, text);
  }

  /**
   Renumbering keeps the meaning: after the merge a check points at a surviving text
   exactly if it pointed at that text before, the last required criterion apart, which
   every mapped check is made to point at. All new ids are in range.
   */
  lemma RenumberingKeepsMeaning(p: Proposal, texts: seq<string>, q: Proposal, i: nat, text: string)
    requires Distinct(p.criteria) && Required(texts) != [] && CriteriaMerged(p, Required(texts), q)
    requires i < |p.checks| && text in q.criteria
    ensures PointsAt(q.checks[i].criterionIds, q.criteria, text) <==>
              || PointsAt(p.checks[i].criterionIds, p.criteria, text)
              || (p.checks[i].criterionIds != {} && text == Last(Required(texts)))
    ensures q.checks[i].criterionIds <= AllIds(|q.criteria|)
  {
    var required := Required(texts);
    MergedDistinct(p.criteria, texts);
    var ids0, ids := p.checks[i].criterionIds, q.checks[i].criterionIds;
    assert Remapped(ids0, p.criteria, q.criteria, |required|, ids);
    assert q.criteria[|required| - 1] == Last(required);
    NewIdsInRange(ids0, p.criteria, q.criteria, |required|, ids);
    if PointsAt(ids, q.criteria, text) {
      NewPointersAreOld(ids0, p.criteria, q.criteria, |required|, ids, text);
    }
    if PointsAt(ids0, p.criteria, text) || (ids0 != {} && text == Last(required)) {
      OldPointersAreNew(ids0, p.criteria, q.criteria, |required|, ids, text);
    }
  }

  // ---- The user's own checks ----------------------------------------------------------

  /** The checks of the user that the merge reads: the first forty. */
  function ReadChecks(required: seq<Option<Check>>): seq<Option<Check>> {
    if |required| <= MAX_USER_CHECKS then required else required[..MAX_USER_CHECKS]
  }

  function UserCheck(c: Check, position: nat): Check { c.(id := UserId(position), source := FromContract) }

  ghost predicate ChecksMerged(p: Proposal, required: seq<Option<Check>>, q: Proposal) {
    && q == p.(checks := q.checks, artifacts := q.artifacts)
    && |q.checks| == |p.checks| + |ReadChecks(required)|
    && p.checks <= q.checks && p.artifacts <= q.artifacts
    && (forall i :: 0 <= i < |ReadChecks(required)| ==>
          required[i].Some? && q.checks[|p.checks| + i] == UserCheck(required[i].value, i + 1))
    && (forall i :: 0 <= i < |ReadChecks(required)| ==>
          required[i].value.kind == FileExists && required[i].value.path != "" ==> required[i].value.path in q.artifacts)
    && |q.artifacts| <= |p.artifacts| + |ReadChecks(required)|
  }

  /** None if a check that is read is not a valid check: its validation raises. */
  method MergeRequiredChecks(p: Proposal, required: seq<Option<Check>>) returns (r: Option<Proposal>)
    ensures r.None? <==> None in ReadChecks(required)
    ensures r.Some? ==> ChecksMerged(p, required, r.value)
  {
    var checks, artifacts := p.checks, p.artifacts;
    var read := ReadChecks(required);
    for i := 0 to |read|
      invariant None !in read[..i]
      invariant |checks| == |p.checks| + i && p.checks <= checks && p.artifacts <= artifacts
      invariant |artifacts| <= |p.artifacts| + i
      invariant forall k :: 0 <= k < i ==> checks[|p.checks| + k] == UserCheck(read[k].value, k + 1)
      invariant forall k :: 0 <= k < i ==>
        read[k].value.kind == FileExists && read[k].value.path != "" ==> read[k].value.path in artifacts
    {
      if read[i].None? { return None; }
      var check := UserCheck(read[i].value, i + 1);
      checks := checks + [check];
      if check.kind == FileExists && check.path != "" && check.path !in artifacts {
        artifacts := artifacts + [check.path];
      }
    }
    return Some(p.(checks := checks, artifacts := artifacts));
  }

  ghost predicate Carries(checks: seq<Check>, id: CheckId) { exists c :: c in checks && c.id == id }

  /** Every check of the user is merged exactly if there are at most forty. */
  lemma AllMergedUpToForty(p: Proposal, required: seq<Option<Check>>, q: Proposal)
    requires ChecksMerged(p, required, q)
    requires forall c :: c in p.checks ==> !c.id.UserId?
    ensures (forall n :: 1 <= n <= |required| ==> Carries(q.checks, UserId(n))) <==> |required| <= MAX_USER_CHECKS
    ensures |required| > MAX_USER_CHECKS ==> !Carries(q.checks, UserId(MAX_USER_CHECKS + 1))
  {
    var m := |p.checks|;
    forall n | 1 <= n <= |ReadChecks(required)| ensures Carries(q.checks, UserId(n)) {
      assert q.checks[m + n - 1] == UserCheck(required[n - 1].value, n);
      assert q.checks[m + n - 1] in q.checks;
    }
    forall c | c in q.checks ensures c.id != UserId(MAX_USER_CHECKS + 1) {
      OnlyReadChecksAreMerged(p, required, q, c);
    }
    assert !Carries(q.checks, UserId(MAX_USER_CHECKS + 1));
  }

  lemma OnlyReadChecksAreMerged(p: Proposal, required: seq<Option<Check>>, q: Proposal, c: Check)
    requires ChecksMerged(p, required, q) && c in q.checks
    requires forall x :: x in p.checks ==> !x.id.UserId?
    ensures c.id.UserId? ==> 1 <= c.id.n <= MAX_USER_CHECKS
  {
    var k :| 0 <= k < |q.checks| && q.checks[k] == c;
    if k < |p.checks| {
      assert c == p.checks[k];
    } else {
      var i := k - |p.checks|;
      assert q.checks[|p.checks| + i] == UserCheck(required[i].value, i + 1);
    }
  }

  /** What an implementation-fix revision requires: the contract checks of the delivery, mapped to its one criterion. */
  function FixRevisionChecks(prior: seq<Check>): (r: seq<Option<Check>>)
    ensures |r| == |Filter(IsContract, prior)| && None !in r
  {
    var kept := Filter(IsContract, prior);
    seq(|kept|, i requires 0 <= i < |kept| => Some(kept[i].(criterionIds := {FormatId(1)})))
  }

  predicate IsContract(c: Check) { c.source == FromContract }

  predicate IsUsers(c: Check) { c.id.UserId? }

  /** A contract check that is not the user's. */
  predicate IsOther(c: Check) { IsContract(c) && !IsUsers(c) }

  // ---- The checks of a delivery --------------------------------------------------------

  datatype Definition = Definition(kind: CheckKind, command: string, path: string, text: string, exit: Exit, stdout: Option<string>)

  function DefinitionOf(c: Check): Definition { Definition(c.kind, c.command, c.path, c.text, c.exit, c.stdout) }

  /** A contract check mapped to nothing counts for every criterion. */
  function Filled(c: Check, ids: set<string>): Check {
    if IsContract(c) && c.criterionIds == {} then c.(criterionIds := ids) else c
  }

  /** The check joins the one with its definition, or comes last. */
  function JoinCheck(before: seq<Check>, c: Check): seq<Check> {
    if before == [] then [c]
    else if DefinitionOf(before[0]) == DefinitionOf(c) then
      [before[0].(criterionIds := before[0].criterionIds + c.criterionIds)] + before[1..]
    else [before[0]] + JoinCheck(before[1..], c)
  }

  /** The checks of a task whose locked contract holds no gate of the system, when its loop begins. */
  function Completed(checks: seq<Check>, ids: set<string>): seq<Check> {
    if checks == [] then [] else JoinCheck(Completed(Front(checks), ids), Filled(Last(checks), ids))
  }

  ghost predicate DistinctDefinitions(checks: seq<Check>) {
    forall i, j :: 0 <= i < j < |checks| ==> DefinitionOf(checks[i]) != DefinitionOf(checks[j])
  }

  lemma {:induction false} NewDefinitionComesLast(before: seq<Check>, c: Check)
    requires forall k :: 0 <= k < |before| ==> DefinitionOf(before[k]) != DefinitionOf(c)
    ensures JoinCheck(before, c) == before + [c]
  {
    if before != [] {
      NewDefinitionComesLast(before[1..], c);
    }
  }

  /** Checks of different definitions all stay. */
  lemma {:induction false} CompletedKeepsDistinct(checks: seq<Check>, ids: set<string>)
    requires DistinctDefinitions(checks)
    ensures |Completed(checks, ids)| == |checks|
    ensures forall k :: 0 <= k < |checks| ==> Completed(checks, ids)[k] == Filled(checks[k], ids)
    ensures |Filter(IsContract, Completed(checks, ids))| == |Filter(IsContract, checks)|
  {
    if checks != [] {
      CompletedKeepsDistinct(Front(checks), ids);
      NewDefinitionComesLast(Completed(Front(checks), ids), Filled(Last(checks), ids));
    }
  }

  // ---- Duplicate checks ---------------------------------------------------------------

  datatype Identity = Identity(kind: CheckKind, command: string, path: string, text: string, exit: Exit, stdout: Option<string>)

  function IdentityOf(c: Check): Identity { Identity(c.kind, Strip(c.command), c.path, c.text, c.exit, c.stdout) }

  /** `i` is the first position of its identity among the first `n` checks. */
  ghost predicate First(checks: seq<Check>, n: nat, i: int) {
    0 <= i < n <= |checks| && forall j :: 0 <= j < i ==> IdentityOf(checks[j]) != IdentityOf(checks[i])
  }

  /** The check `c` gathers everything that the first `n` checks say under its identity. */
  ghost predicate Gathers(checks: seq<Check>, n: nat, c: Check)
    requires n <= |checks|
  {
    && (exists i :: First(checks, n, i) && c == checks[i].(criterionIds := c.criterionIds))
    && (forall x :: x in c.criterionIds <==>
          exists i :: 0 <= i < n && IdentityOf(checks[i]) == IdentityOf(c) && x in checks[i].criterionIds)
  }

  function Identities(checks: seq<Check>): (r: seq<Identity>)
    ensures |r| == |checks| && forall i :: 0 <= i < |r| ==> r[i] == IdentityOf(checks[i])
  {
    seq(|checks|, i requires 0 <= i < |checks| => IdentityOf(checks[i]))
  }

  ghost predicate Deduplicated(checks: seq<Check>, n: nat, unique: seq<Check>)
    requires n <= |checks|
  {
    && Identities(unique) == Dedupe(Identities(checks[..n]))
    && forall c :: c in unique ==> Gathers(checks, n, c)
  }

  lemma GathersAlso(checks: seq<Check>, n: nat, c: Check)
    requires n < |checks| && Gathers(checks, n, c)
    ensures IdentityOf(checks[n]) != IdentityOf(c) ==> Gathers(checks, n + 1, c)
    ensures IdentityOf(checks[n]) == IdentityOf(c) ==>
              Gathers(checks, n + 1, c.(criterionIds := c.criterionIds + checks[n].criterionIds))
  {
  }

  lemma GathersItself(checks: seq<Check>, n: nat)
    requires n < |checks| && IdentityOf(checks[n]) !in Identities(checks[..n])
    ensures Gathers(checks, n + 1, checks[n])
  {
  }

  lemma IdentitiesGrow(checks: seq<Check>, n: nat)
    requires n < |checks|
    ensures var before, after := Identities(checks[..n]), Identities(checks[..n + 1]);
            Dedupe(after) == if IdentityOf(checks[n]) in before then Dedupe(before) else Dedupe(before) + [IdentityOf(checks[n])]
  {
    var after := Identities(checks[..n + 1]);
    assert Front(after) == Identities(checks[..n]) && Last(after) == IdentityOf(checks[n]);
  }

  lemma FirstOccurrenceAppended(checks: seq<Check>, n: nat, unique: seq<Check>)
    requires n < |checks| && Deduplicated(checks, n, unique)
    requires IdentityOf(checks[n]) !in Identities(checks[..n])
    ensures Deduplicated(checks, n + 1, unique + [checks[n]])
  {
    var identity := IdentityOf(checks[n]);
    IdentitiesGrow(checks, n);
    GathersItself(checks, n);
    assert Identities(unique + [checks[n]]) == Identities(unique) + [identity];
    OthersGatherOn(checks, n, unique);
  }

  lemma OthersGatherOn(checks: seq<Check>, n: nat, unique: seq<Check>)
    requires n < |checks| && Deduplicated(checks, n, unique)
    requires IdentityOf(checks[n]) !in Identities(checks[..n])
    ensures forall c :: c in unique ==> Gathers(checks, n + 1, c)
  {
    forall c | c in unique ensures Gathers(checks, n + 1, c) {
      OtherIdentity(unique, c, IdentityOf(checks[n]), Identities(checks[..n]));
      GathersAlso(checks, n, c);
    }
  }

  lemma RepetitionJoined(checks: seq<Check>, n: nat, unique: seq<Check>, at: nat)
    requires n < |checks| && Deduplicated(checks, n, unique)
    requires at < |unique| && IdentityOf(unique[at]) == IdentityOf(checks[n])
    requires IdentityOf(checks[n]) in Identities(checks[..n])
    ensures Deduplicated(checks, n + 1, Joined(unique, at, checks[n]))
  {
    var joined := Joined(unique, at, checks[n]);
    IdentitiesGrow(checks, n);
    assert Identities(joined) == Identities(unique);
    forall c | c in joined ensures Gathers(checks, n + 1, c) {
      var k :| 0 <= k < |joined| && joined[k] == c;
      assert unique[k] in unique;
      if k != at {
        SameIdentityOnce(unique, k, at);
      }
      GathersAlso(checks, n, unique[k]);
    }
  }

  function Joined(unique: seq<Check>, at: nat, c: Check): seq<Check>
    requires at < |unique|
  {
    unique[at := unique[at].(criterionIds := unique[at].criterionIds + c.criterionIds)]
  }

  method DeduplicateChecks(checks: seq<Check>) returns (unique: seq<Check>)
    ensures Deduplicated(checks, |checks|, unique)
    ensures |unique| <= |checks|
  {
    unique := [];
    var positions: map<Identity, nat> := map[];
    for n := 0 to |checks|
      invariant Deduplicated(checks, n, unique)
      invariant |unique| <= n
      invariant forall t :: t in positions <==> t in Identities(checks[..n])
      invariant forall t :: t in positions ==> positions[t] < |unique| && IdentityOf(unique[positions[t]]) == t
    {
      var identity := IdentityOf(checks[n]);
      assert Identities(checks[..n + 1]) == Identities(checks[..n]) + [identity];
      if identity !in positions {
        FirstOccurrenceAppended(checks, n, unique);
        positions := positions[identity := |unique|];
        unique := unique + [checks[n]];
      } else {
        RepetitionJoined(checks, n, unique, positions[identity]);
        unique := Joined(unique, positions[identity], checks[n]);
      }
    }
  }

  lemma OtherIdentity(unique: seq<Check>, c: Check, identity: Identity, all: seq<Identity>)
    requires Identities(unique) == Dedupe(all) && c in unique && identity !in all
    ensures IdentityOf(c) != identity
  {
  }

  lemma SameIdentityOnce(unique: seq<Check>, i: nat, j: nat)
    requires Distinct(Identities(unique)) && i < |unique| && j < |unique| && i != j
    ensures IdentityOf(unique[i]) != IdentityOf(unique[j])
  {
  }

  /** What the contract says under an identity is unchanged: no identity and no mapping is lost or made up. */
  lemma DeduplicationKeepsCoverage(checks: seq<Check>, unique: seq<Check>, identity: Identity, id: string)
    requires Deduplicated(checks, |checks|, unique)
    ensures Distinct(Identities(unique))
    ensures (exists i :: 0 <= i < |checks| && IdentityOf(checks[i]) == identity && id in checks[i].criterionIds)
       <==> (exists k :: 0 <= k < |unique| && IdentityOf(unique[k]) == identity && id in unique[k].criterionIds)
  {
    assert checks[..|checks|] == checks;
    if i :| 0 <= i < |checks| && IdentityOf(checks[i]) == identity && id in checks[i].criterionIds {
      assert Identities(checks)[i] == identity;
      assert identity in Identities(unique);
      var k :| 0 <= k < |unique| && Identities(unique)[k] == identity;
      assert unique[k] in unique && Gathers(checks, |checks|, unique[k]);
    }
    if k :| 0 <= k < |unique| && IdentityOf(unique[k]) == identity && id in unique[k].criterionIds {
      assert unique[k] in unique && Gathers(checks, |checks|, unique[k]);
    }
  }

  // ---- Discovered gates ---------------------------------------------------------------

  datatype Target = Target(kind: CheckKind, place: string, text: string)

  function TargetOf(c: Check): Target { Target(c.kind, Strip(if c.command != "" then c.command else c.path), c.text) }

  predicate IsTest(j: Judgement, c: Check) { c.command != "" && j.isTestCommand(c.command) }

  predicate PreviewsCover(j: Judgement, criteria: seq<string>, d: Discovery) {
    && d.testFiles != []
    && (exists c :: c in d.qualityChecks && IsTest(j, c))
    && (forall path :: path in d.testFiles ==> path in d.previewed)
    && j.previewsCover(criteria, d)
  }

  /** `r` is `before` with the gate `c` merged in: its own position, or a new last one. */
  ghost predicate GateAdded(j: Judgement, before: seq<Check>, c: Check, count: nat, covers: bool, r: seq<Check>) {
    if k :| LastWith(before, TargetOf(c), k) then
      r == before[k := if IsTest(j, before[k]) then before[k].(criterionIds := before[k].criterionIds + AllIds(count)) else before[k]]
    else
      r == before + [NewGate(j, c, |before|, count, covers)]
  }

  /** A new gate: a discovered test is made a contract check on every criterion. */
  function NewGate(j: Judgement, c: Check, position: nat, count: nat, covers: bool): Check {
    if covers && IsTest(j, c) then
      c.(id := DiscoveredTestId(position + 1), source := FromContract, criterionIds := AllIds(count))
    else c
  }

  ghost predicate LastWith(checks: seq<Check>, t: Target, k: int) {
    && 0 <= k < |checks| && TargetOf(checks[k]) == t
    && forall m :: k < m < |checks| ==> TargetOf(checks[m]) != t
  }

  ghost predicate Indexes(checks: seq<Check>, positions: map<Target, int>) {
    forall t, k :: LastWith(checks, t, k) <==> t in positions && positions[t] == k
  }

  lemma IndexesAppended(checks: seq<Check>, positions: map<Target, int>, c: Check)
    requires Indexes(checks, positions)
    ensures Indexes(checks + [c], positions[TargetOf(c) := |checks|])
  {
    var longer := checks + [c];
    forall t, k ensures LastWith(longer, t, k) <==> if t == TargetOf(c) then k == |checks| else LastWith(checks, t, k) {
      assert longer[|checks|] == c;
      if LastWith(longer, t, k) && k < |checks| {
        assert forall m :: k < m < |checks| ==> TargetOf(longer[m]) != t && longer[m] == checks[m];
      }
    }
  }

  lemma IndexesRemapped(checks: seq<Check>, positions: map<Target, int>, position: nat, c: Check)
    requires Indexes(checks, positions) && position < |checks| && TargetOf(c) == TargetOf(checks[position])
    ensures Indexes(checks[position := c], positions)
  {
    var changed := checks[position := c];
    assert forall m :: 0 <= m < |checks| ==> TargetOf(changed[m]) == TargetOf(checks[m]);
    forall t, k ensures LastWith(changed, t, k) <==> LastWith(checks, t, k) {
    }
  }

  ghost predicate GatesAdded(j: Judgement, before: seq<Check>, gates: seq<Check>, count: nat, covers: bool, r: seq<Check>) {
    if gates == [] then r == before
    else exists mid ::
      && GatesAdded(j, before, Front(gates), count, covers, mid)
      && GateAdded(j, mid, Last(gates), count, covers, r)
  }

  method EffectiveChecks(j: Judgement, p: Proposal, d: Discovery) returns (r: seq<Check>)
    ensures exists all ::
      && GatesAdded(j, p.checks, d.qualityChecks, |p.criteria|, PreviewsCover(j, p.criteria, d), all)
      && r == Pruned(j, all, p, d)
  {
    var checks := p.checks;
    var positions := LastPositions(checks);
    var count := |p.criteria|;
    var covers := PreviewsCover(j, p.criteria, d);
    for i := 0 to |d.qualityChecks|
      invariant GatesAdded(j, p.checks, d.qualityChecks[..i], count, covers, checks)
      invariant Indexes(checks, positions)
    {
      var check := d.qualityChecks[i];
      var target := TargetOf(check);
      ghost var before := checks;
      assert Front(d.qualityChecks[..i + 1]) == d.qualityChecks[..i] && Last(d.qualityChecks[..i + 1]) == check;
      if target in positions {
        var position := positions[target];
        assert LastWith(checks, target, position);
        var existing := checks[position];
        if IsTest(j, existing) {
          var mapped := existing.(criterionIds := existing.criterionIds + AllIds(count));
          IndexesRemapped(checks, positions, position, mapped);
          checks := checks[position := mapped];
        }
      } else {
        var gate := NewGate(j, check, |checks|, count, covers);
        IndexesAppended(checks, positions, gate);
        checks := checks + [gate];
        positions := positions[target := |checks| - 1];
      }
      assert GateAdded(j, before, check, count, covers, checks);
    }
    assert d.qualityChecks[..|d.qualityChecks|] == d.qualityChecks;
    r := Prune(j, checks, p, d);
  }

  method LastPositions(checks: seq<Check>) returns (positions: map<Target, int>)
    ensures Indexes(checks, positions)
  {
    positions := map[];
    for i := 0 to |checks|
      invariant Indexes(checks[..i], positions)
    {
      assert checks[..i + 1] == checks[..i] + [checks[i]];
      IndexesAppended(checks[..i], positions, checks[i]);
      positions := positions[TargetOf(checks[i]) := i];
    }
    assert checks[..|checks|] == checks;
  }

  /** No check of the proposal is lost or altered, its mapping apart, which only grows. */
  lemma {:induction false} GatesKeepChecks(j: Judgement, before: seq<Check>,
        gates: seq<Check>, count: nat, covers: bool, r: seq<Check>, k: nat)
    requires GatesAdded(j, before, gates, count, covers, r) && k < |before|
    ensures |before| <= |r| <= |before| + |gates|
    ensures r[k] == before[k].(criterionIds := r[k].criterionIds) && before[k].criterionIds <= r[k].criterionIds
  {
    if gates != [] {
      var mid :| GatesAdded(j, before, Front(gates), count, covers, mid) && GateAdded(j, mid, Last(gates), count, covers, r);
      GatesKeepChecks(j, before, Front(gates), count, covers, mid, k);
    }
  }

  ghost predicate Targets(checks: seq<Check>, t: Target) { exists k :: 0 <= k < |checks| && TargetOf(checks[k]) == t }

  lemma GateIsPresent(j: Judgement, before: seq<Check>, c: Check, count: nat, covers: bool, r: seq<Check>, t: Target)
    requires GateAdded(j, before, c, count, covers, r)
    ensures Targets(r, t) <==> Targets(before, t) || TargetOf(c) == t
  {
    if k :| LastWith(before, TargetOf(c), k) {
      assert |r| == |before| && forall m :: 0 <= m < |r| ==> TargetOf(r[m]) == TargetOf(before[m]);
    } else {
      assert |r| == |before| + 1 && TargetOf(r[|before|]) == TargetOf(c);
      assert forall m :: 0 <= m < |before| ==> r[m] == before[m];
    }
  }

  /** Every discovered gate is run: some check has its target. */
  lemma {:induction false} GatesArePresent(j: Judgement, before: seq<Check>,
        gates: seq<Check>, count: nat, covers: bool, r: seq<Check>, t: Target)
    requires GatesAdded(j, before, gates, count, covers, r)
    ensures Targets(r, t) <==> Targets(before, t) || Targets(gates, t)
  {
    if gates != [] {
      var mid :| GatesAdded(j, before, Front(gates), count, covers, mid) && GateAdded(j, mid, Last(gates), count, covers, r);
      GatesArePresent(j, before, Front(gates), count, covers, mid, t);
      GateIsPresent(j, mid, Last(gates), count, covers, r, t);
      assert forall k :: 0 <= k < |gates| - 1 ==> gates[k] == Front(gates)[k];
    }
  }

  /** The gates that discovery finds carry ids of the system. */
  ghost predicate NoneIsUsers(checks: seq<Check>) { forall c :: c in checks ==> !IsUsers(c) }

  ghost predicate UsersAreContract(checks: seq<Check>) { forall c :: c in checks && IsUsers(c) ==> IsContract(c) }

  lemma {:induction false} SameIdsSameUsers(a: seq<Check>, b: seq<Check>)
    requires |a| == |b| && forall i :: 0 <= i < |a| ==> a[i].id == b[i].id
    ensures |Filter(IsUsers, a)| == |Filter(IsUsers, b)|
  {
    if a != [] {
      SameIdsSameUsers(Front(a), Front(b));
    }
  }

  lemma GateKeepsUsers(j: Judgement, before: seq<Check>, c: Check, count: nat, covers: bool, r: seq<Check>)
    requires GateAdded(j, before, c, count, covers, r) && !IsUsers(c) && UsersAreContract(before)
    ensures |Filter(IsUsers, r)| == |Filter(IsUsers, before)| && UsersAreContract(r)
    ensures forall x :: x in r && IsUsers(x) ==> Carries(before, x.id)
  {
    if k :| LastWith(before, TargetOf(c), k) {
      RemappingKeepsUsers(before, r);
    } else {
      assert Front(r) == before && Last(r) == NewGate(j, c, |before|, count, covers);
      forall x | x in r && IsUsers(x) ensures Carries(before, x.id) {
        assert x in before;
      }
    }
  }

  lemma RemappingKeepsUsers(before: seq<Check>, r: seq<Check>)
    requires |r| == |before| && UsersAreContract(before)
    requires forall i :: 0 <= i < |r| ==> r[i].id == before[i].id && r[i].source == before[i].source
    ensures |Filter(IsUsers, r)| == |Filter(IsUsers, before)| && UsersAreContract(r)
    ensures forall x :: x in r ==> Carries(before, x.id)
  {
    SameIdsSameUsers(before, r);
    forall x | x in r ensures Carries(before, x.id) && (IsUsers(x) ==> IsContract(x)) {
      var i :| 0 <= i < |r| && r[i] == x;
      assert before[i] in before;
    }
  }

  /** Adding gates neither adds nor loses a check of the user. */
  lemma {:induction false} GatesKeepUsers(j: Judgement, before: seq<Check>,
        gates: seq<Check>, count: nat, covers: bool, r: seq<Check>)
    requires GatesAdded(j, before, gates, count, covers, r) && NoneIsUsers(gates) && UsersAreContract(before)
    ensures |Filter(IsUsers, r)| == |Filter(IsUsers, before)| && UsersAreContract(r)
    ensures forall x :: x in r && IsUsers(x) ==> Carries(before, x.id)
  {
    if gates != [] {
      var mid :| GatesAdded(j, before, Front(gates), count, covers, mid) && GateAdded(j, mid, Last(gates), count, covers, r);
      assert forall g :: g in Front(gates) ==> g in gates;
      GatesKeepUsers(j, before, Front(gates), count, covers, mid);
      assert Last(gates) in gates;
      GateKeepsUsers(j, mid, Last(gates), count, covers, r);
    }
  }

  // ---- Pruning ------------------------------------------------------------------------

  predicate CompleteGate(j: Judgement, c: Check, count: nat) {
    c.source == FromContract && IsTest(j, c) && AllIds(count) <= c.criterionIds
  }

  predicate Licensed(j: Judgement, checks: seq<Check>, p: Proposal, d: Discovery) {
    (exists c :: c in checks && CompleteGate(j, c, |p.criteria|)) && d.testFiles != []
  }

  /** A file check that only looks at the source the tests exercise. */
  predicate RedundantFileCheck(j: Judgement, c: Check, artifacts: seq<string>) {
    && c.kind != Command && c.path != "" && !j.isTestPath(c.path) && !c.id.UserId?
    && (c.kind == FileContains || c.path in artifacts)
  }

  predicate RedundantCommand(j: Judgement, c: Check, covers: bool) {
    c.kind == Command && c.source == FromContract && !IsTest(j, c) && !c.id.UserId? && covers
  }

  function Kept(j: Judgement, p: Proposal, d: Discovery): Check -> bool {
    c => !RedundantCommand(j, c, PreviewsCover(j, p.criteria, d)) && !RedundantFileCheck(j, c, p.artifacts)
  }

  function Pruned(j: Judgement, checks: seq<Check>, p: Proposal, d: Discovery): seq<Check> {
    if Licensed(j, checks, p, d) then Filter(Kept(j, p, d), checks) else checks
  }

  method Prune(j: Judgement, checks: seq<Check>, p: Proposal, d: Discovery) returns (pruned: seq<Check>)
    ensures pruned == Pruned(j, checks, p, d)
  {
    if !Licensed(j, checks, p, d) { return checks; }
    var covers := PreviewsCover(j, p.criteria, d);
    pruned := [];
    for i := 0 to |checks|
      invariant pruned == Filter(Kept(j, p, d), checks[..i])
    {
      assert Front(checks[..i + 1]) == checks[..i] && Last(checks[..i + 1]) == checks[i];
      var check := checks[i];
      if RedundantCommand(j, check, covers) || RedundantFileCheck(j, check, p.artifacts) { continue; }
      pruned := pruned + [check];
    }
    assert checks[..|checks|] == checks;
  }

  /**
   Pruning keeps a complete test gate exactly if it is not a file check that the second
   branch drops: a file check may carry a test command too, and then licenses its own
   removal. A gate that is a command is always kept, as is every check of the user.
   */
  lemma GateSurvivesIff(j: Judgement, checks: seq<Check>, p: Proposal, d: Discovery, gate: Check)
    requires gate in checks && CompleteGate(j, gate, |p.criteria|) && d.testFiles != []
    ensures gate in Pruned(j, checks, p, d) <==> !RedundantFileCheck(j, gate, p.artifacts)
    ensures gate.kind == Command ==> gate in Pruned(j, checks, p, d)
  {
    FilterMembers(Kept(j, p, d), checks, gate);
  }

  lemma PruningKeeps(j: Judgement, checks: seq<Check>, p: Proposal, d: Discovery, c: Check)
    requires c in checks
    requires c.id.UserId? || (c.kind == Command && (IsTest(j, c) || c.source == FromSystem))
    ensures c in Pruned(j, checks, p, d)
  {
    FilterMembers(Kept(j, p, d), checks, c);
  }

  lemma {:induction false} FilterKeepsUsers(keep: Check -> bool, checks: seq<Check>)
    requires forall c :: c in checks && IsUsers(c) ==> keep(c)
    ensures |Filter(IsUsers, Filter(keep, checks))| == |Filter(IsUsers, checks)|
  {
    if checks != [] {
      assert checks == Front(checks) + [Last(checks)];
      FilterKeepsUsers(keep, Front(checks));
      assert Last(checks) in checks;
      FilterConcat(IsUsers, Filter(keep, Front(checks)), if keep(Last(checks)) then [Last(checks)] else []);
    }
  }

  /** Nor does pruning lose one. */
  lemma PruningKeepsUsers(j: Judgement, checks: seq<Check>, p: Proposal, d: Discovery)
    requires UsersAreContract(checks)
    ensures |Filter(IsUsers, Pruned(j, checks, p, d))| == |Filter(IsUsers, checks)|
    ensures UsersAreContract(Pruned(j, checks, p, d)) && forall c :: c in Pruned(j, checks, p, d) ==> c in checks
  {
    forall c ensures c in Filter(Kept(j, p, d), checks) ==> c in checks {
      FilterMembers(Kept(j, p, d), checks, c);
    }
    FilterKeepsUsers(Kept(j, p, d), checks);
  }

  /** A gate can be dropped by the pruning it licensed, whatever the tests on commands and paths say of it. */
  lemma GateCanBePruned(j: Judgement, d: Discovery)
    requires j.isTestCommand("pytest -q") && !j.isTestPath("app.py") && d.testFiles != []
    ensures var gate := Check(ModelId(1), FileContains, "pytest -q", "app.py", "main", Code(0), None, AllIds(1), FromContract);
            var p := Proposal(["main exists"], [gate], [], Low, 90, {});
            CompleteGate(j, gate, 1) && Pruned(j, [gate], p, d) == []
  {
  }
}
