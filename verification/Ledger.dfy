/**
 The hash-chained step ledger.

 A digest is a free constructor: SHA-256 over the previous digest and the canonical
 JSON of a step's content is taken to be injective, and no digest is an ancestor of
 itself. `Blank` stands for the empty text that replaces a missing previous hash.
 */
module Ledger {
  import opened Basics

  datatype ToolStatus = OK | ERROR | BLOCKED

  datatype Tool =
    | Finish | AskUser | Remember | Spawn | SendEmail | CreateEvent
    | RunCommand | WriteFile | EditFile | Invalid | Other(name: string)

  /** A tool's arguments; `operation` is the id added before a side-effecting send. */
  datatype Args = Args(text: string, operation: Option<nat>)

  datatype Content = Content(number: int, tool: Tool, args: Args, observation: string, status: ToolStatus, tokens: int)

  datatype Digest =
    | Blank
    | Genesis(task: nat)
    | Seal(prev: Digest, content: Content, thought: Option<string>)

  /** The thought takes part in the digest only when it is not empty. */
  function StepHash(prev: Digest, content: Content, thought: string): Digest {
    Seal(prev, content, if thought == "" then None else Some(thought))
  }

  datatype Step = Step(content: Content, thought: string, prev: Option<Digest>, hash: Digest)

  function NewStep(prev: Digest, content: Content, thought: string): Step {
    Step(content, thought, Some(prev), StepHash(prev, content, thought))
  }

  function Head(task: nat, steps: seq<Step>): Digest {
    if steps == [] then Genesis(task) else Last(steps).hash
  }

  /** One step passes the check after a chain ending in `prev`; the second form is the legacy one. */
  predicate Sealed(s: Step, prev: Digest) {
    && s.prev == Some(prev)
    && (s.hash == StepHash(prev, s.content, s.thought) || s.hash == StepHash(prev, s.content, ""))
  }

  ghost predicate Verified(task: nat, steps: seq<Step>) {
    steps != [] ==> Verified(task, Front(steps)) && Sealed(Last(steps), Head(task, Front(steps)))
  }

  /** Recomputes the chain; on failure it names the first step that breaks it. */
  method VerifyChain(task: nat, steps: seq<Step>) returns (ok: bool, broken: Option<int>)
    ensures ok <==> Verified(task, steps)
    ensures ok <==> broken == None
    ensures !ok ==> exists i :: 0 <= i < |steps| && FirstBroken(task, steps, i) && broken == Some(steps[i].content.number)
  {
    var prev := Genesis(task);
    for i := 0 to |steps|
      invariant prev == Head(task, steps[..i])
      invariant Verified(task, steps[..i])
    {
      var s := steps[i];
      assert Front(steps[..i + 1]) == steps[..i] && Last(steps[..i + 1]) == s;
      PrefixVerified(task, steps, i + 1);
      if s.prev != Some(prev) {
        return false, Some(s.content.number);
      }
      if s.hash != StepHash(prev, s.content, s.thought) {
        if s.hash != StepHash(prev, s.content, "") {
          return false, Some(s.content.number);
        }
      }
      prev := s.hash;
    }
    assert steps[..|steps|] == steps;
    return true, None;
  }

  /** Every step before `i` passes and step `i` does not. */
  ghost predicate FirstBroken(task: nat, steps: seq<Step>, i: nat)
    requires i < |steps|
  {
    Verified(task, steps[..i]) && !Sealed(steps[i], Head(task, steps[..i]))
  }

  /** A chain verifies exactly if every step is sealed on the head of the steps before it. */
  lemma {:induction false} EveryStepSealed(task: nat, steps: seq<Step>)
    ensures Verified(task, steps) <==> forall i :: 0 <= i < |steps| ==> Sealed(steps[i], Head(task, steps[..i]))
  {
    if steps != [] {
      var front := Front(steps);
      EveryStepSealed(task, front);
      assert forall i :: 0 <= i < |front| ==> front[i] == steps[i] && front[..i] == steps[..i];
    }
  }

  lemma {:induction false} PrefixVerified(task: nat, steps: seq<Step>, i: nat)
    requires i <= |steps|
    ensures Verified(task, steps) ==> Verified(task, steps[..i])
  {
    if i == |steps| {
      assert steps[..i] == steps;
    } else {
      PrefixVerified(task, Front(steps), i);
      assert Front(steps)[..i] == steps[..i];
    }
  }

  // ---- What the head of a verified chain pins down ---------------------------

  /** Equal in everything the seal covers: a thought sealed as empty is left free. */
  predicate SameRecord(a: Step, b: Step) {
    && a.content == b.content
    && a.prev == b.prev
    && a.hash == b.hash
    && (a.hash.Seal? && a.hash.thought.Some? ==> a.thought == b.thought)
  }

  ghost predicate SameRecords(s: seq<Step>, t: seq<Step>) {
    |s| == |t| && forall i :: 0 <= i < |s| ==> SameRecord(s[i], t[i])
  }

  lemma SealedFacts(s: Step, prev: Digest)
    requires Sealed(s, prev)
    ensures s.hash.Seal? && s.hash.prev == prev && s.hash.content == s.content
    ensures s.hash.thought == None || s.hash.thought == Some(s.thought)
  {
  }

  /** A verified chain has its own head; two that share it have recorded the same history. */
  lemma {:induction false} HeadBindsHistory(task: nat, s: seq<Step>, t: seq<Step>)
    requires Verified(task, s) && Verified(task, t) && Head(task, s) == Head(task, t)
    ensures SameRecords(s, t)
    decreases |s|
  {
    if s != [] { SealedFacts(Last(s), Head(task, Front(s))); }
    if t != [] { SealedFacts(Last(t), Head(task, Front(t))); }
    if s != [] && t != [] {
      HeadBindsHistory(task, Front(s), Front(t));
      RecordsGrow(s, t);
    }
  }

  lemma RecordsGrow(s: seq<Step>, t: seq<Step>)
    requires s != [] && t != [] && SameRecords(Front(s), Front(t)) && SameRecord(Last(s), Last(t))
    ensures SameRecords(s, t)
  {
  }

  /**
   The exact strength of a published head: a table verifies and has that head if and
   only if it records the same history, empty-sealed thoughts apart.
   */
  lemma {:induction false} HeadCharacterised(task: nat, s: seq<Step>, t: seq<Step>)
    requires Verified(task, s)
    ensures Verified(task, t) && Head(task, t) == Head(task, s) <==> SameRecords(s, t)
  {
    if SameRecords(s, t) {
      SameRecordsVerify(task, s, t);
    } else if Verified(task, t) && Head(task, t) == Head(task, s) {
      HeadBindsHistory(task, s, t);
    }
  }

  lemma {:induction false} SameRecordsVerify(task: nat, s: seq<Step>, t: seq<Step>)
    requires Verified(task, s) && SameRecords(s, t)
    ensures Verified(task, t) && Head(task, t) == Head(task, s)
    decreases |s|
  {
    if s != [] {
      assert SameRecord(s[|s| - 1], t[|t| - 1]);
      assert forall i :: 0 <= i < |s| - 1 ==> SameRecord(s[i], t[i]) && Front(s)[i] == s[i] && Front(t)[i] == t[i];
      SameRecordsVerify(task, Front(s), Front(t));
      SealedFacts(Last(s), Head(task, Front(s)));
    }
  }

  // ---- Editing one recorded step ----------------------------------------------

  /**
   "Change any recorded step and its hash no longer matches": editing the content or
   the thought of step `i` and leaving the hashes alone escapes the check exactly when
   nothing but a thought that was sealed as empty changed. Any other edit is reported
   at step `i` itself.
   */
  lemma {:induction false} EditDetected(task: nat, steps: seq<Step>, i: nat, content: Content, thought: string)
    requires i < |steps| && Verified(task, steps)
    ensures var edited := Edited(steps, i, content, thought);
            && (Verified(task, edited) <==>
                content == steps[i].content && (thought == steps[i].thought || (steps[i].hash.Seal? && steps[i].hash.thought == None)))
            && (!Verified(task, edited) ==> FirstBroken(task, edited, i))
    decreases |steps|
  {
    var edited := Edited(steps, i, content, thought);
    SealedFacts(Last(steps), Head(task, Front(steps)));
    assert edited[..i] == steps[..i];
    if i == |steps| - 1 {
      assert Front(edited) == Front(steps);
    } else {
      EditDetected(task, Front(steps), i, content, thought);
      assert Front(edited) == Edited(Front(steps), i, content, thought);
      assert Front(edited)[..i] == edited[..i];
    }
  }

  function Edited(steps: seq<Step>, i: nat, content: Content, thought: string): (r: seq<Step>)
    requires i < |steps|
    ensures |r| == |steps| && r[i] == steps[i].(content := content, thought := thought)
    ensures forall j :: 0 <= j < |r| && j != i ==> r[j] == steps[j]
  {
    steps[i := steps[i].(content := content, thought := thought)]
  }

  /** The free part, on a concrete table: a thought set on a step sealed without one leaves the chain verified. */
  lemma EmptySealedThoughtIsFree()
    ensures var step := NewStep(Genesis(0), Content(1, RunCommand, Args("ls", None), "exit 0", OK, 5), "");
            && Verified(0, [step])
            && Verified(0, [step.(thought := "listing the files")])
  {
  }

  // ---- The two ways the table grows or changes ---------------------------------

  /** Recording: the new step is sealed on the current head. */
  lemma AppendVerified(task: nat, steps: seq<Step>, content: Content, thought: string)
    requires Verified(task, steps)
    ensures var longer := steps + [NewStep(Head(task, steps), content, thought)];
            Verified(task, longer) && Head(task, longer) == StepHash(Head(task, steps), content, thought)
  {
  }

  /** Re-sealing the last step after its observation was rewritten by an answer. */
  function Reseal(s: Step, observation: string): Step {
    var content := s.content.(observation := observation);
    s.(content := content,
       hash := StepHash(match s.prev case Some(d) => d case None => Blank, content, s.thought))
  }

  function ResealLast(steps: seq<Step>, observation: string): seq<Step>
    requires steps != []
  {
    Front(steps) + [Reseal(Last(steps), observation)]
  }

  lemma ResealVerified(task: nat, steps: seq<Step>, observation: string)
    requires steps != [] && Verified(task, steps)
    ensures Verified(task, ResealLast(steps, observation))
  {
  }
}
