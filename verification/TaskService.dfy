/** The operations of the task service on running tasks: an answer, and a cancellation. */
module TaskService {
  import opened Basics
  import opened Ledger
  import opened LoopPolicy
  import opened RunProtocol
  import opened TaskTree

  // ---- Cancelling a tree of tasks ----------------------------------------------------------

  datatype Refusal = NotFound | Conflict(status: Status)

  predicate Active(s: Status) { s == PENDING || s == RUNNING || s == AWAITING_INPUT }

  /** For a row any history can reach, the guard on the status is exactly the policy's own. */
  lemma ActiveMayBeCancelled(row: Row)
    requires Consistent(row)
    ensures Active(row.status) <==> ApplyEvent(row, Cancel, None).Ok?
    ensures Active(row.status) ==> !Active(ApplyEvent(row, Cancel, None).value.status)
  {
  }

  function Ended(row: Row): Row {
    match ApplyEvent(row, Cancel, None)
    case Ok(after) => after
    case Err(_) => row
  }

  /** The rows with the active ones among `ids` cancelled. */
  function Swept(rows: map<nat, Row>, ids: set<nat>): map<nat, Row> {
    map id | id in rows :: if id in ids && Active(rows[id].status) then Ended(rows[id]) else rows[id]
  }

  lemma SweptKeepsConsistent(rows: map<nat, Row>, ids: set<nat>, id: nat)
    requires id in rows && Consistent(rows[id])
    ensures Consistent(Swept(rows, ids)[id])
    ensures id in ids ==> !Active(Swept(rows, ids)[id].status)
  {
  }

  ghost predicate InSubtree(nodes: seq<Node>, root: nat, id: nat) {
    id == root || exists n: Node :: n.id == id && Descendant(nodes, root, n)
  }

  class TaskStore {
    const nodes: seq<Node>
    var rows: map<nat, Row>

    ghost predicate Valid()
      reads this
    {
      Keyed(nodes) && rows.Keys == Ids(nodes) && forall id :: id in rows ==> Consistent(rows[id])
    }

    constructor (nodes: seq<Node>, rows: map<nat, Row>)
      requires Keyed(nodes) && rows.Keys == Ids(nodes) && forall id :: id in rows ==> Consistent(rows[id])
      ensures Valid() && this.nodes == nodes && this.rows == rows
    {
      this.nodes, this.rows := nodes, rows;
    }

    /** One transition; on a row of this store it cannot be refused. */
    method CancelActive(id: nat, ghost before: map<nat, Row>, ghost done: set<nat>)
      requires id in before && Consistent(before[id]) && rows == Swept(before, done) && id !in done
      modifies `rows
      ensures rows == Swept(before, done + {id})
    {
      if Active(rows[id].status) {
        ActiveMayBeCancelled(rows[id]);
        rows := rows[id := ApplyEvent(rows[id], LoopEvent.Cancel, None).value];
      }
    }

    /** No descendant's transition raises; the active tasks of the subtree are cancelled, all others untouched. */
    method Cancel(root: nat) returns (refused: Option<Refusal>)
      requires Valid()
      modifies `rows
      ensures Valid()
      ensures refused == if root !in old(rows) then Some(NotFound)
                         else if !Active(old(rows)[root].status) then Some(Conflict(old(rows)[root].status))
                         else None
      ensures refused.Some? ==> rows == old(rows)
      ensures refused.None? ==> rows.Keys == old(rows).Keys && forall id :: id in rows ==>
        rows[id] == if InSubtree(nodes, root, id) && Active(old(rows)[id].status) then Ended(old(rows)[id]) else old(rows)[id]
      ensures refused.None? ==> forall id :: id in rows && InSubtree(nodes, root, id) ==> !Active(rows[id].status)
    {
      if root !in rows { return Some(NotFound); }
      if !Active(rows[root].status) { return Some(Conflict(rows[root].status)); }
      ghost var before := rows;
      ghost var swept := CancelSubtree(root);
      forall id | id in before
        ensures Consistent(rows[id]) && (id in swept ==> !Active(rows[id].status))
      {
        SweptKeepsConsistent(before, swept, id);
      }
      return None;
    }

    method CancelSubtree(root: nat) returns (ghost swept: set<nat>)
      requires Valid() && root in rows
      modifies `rows
      ensures rows == Swept(old(rows), swept)
      ensures forall id :: id in swept <==> InSubtree(nodes, root, id)
    {
      var descendants := ListDescendants(nodes, root);
      SubtreeIs(root, descendants);
      DescendantsAreRows(root, descendants);
      CancelEach(root, descendants);
      swept := {root} + Ids(descendants);
    }

    static lemma NextIsNew(found: seq<Node>, i: nat)
      requires Keyed(found) && i < |found|
      ensures Ids(found[..i + 1]) == Ids(found[..i]) + {found[i].id}
      ensures found[i].id in Ids(found) && found[i].id !in Ids(found[..i])
    {
    }

    /** The root first, then every descendant found. */
    method CancelEach(root: nat, descendants: seq<Node>)
      requires Valid() && root in rows
      requires Keyed(descendants) && Ids(descendants) <= rows.Keys - {root}
      modifies `rows
      ensures rows == Swept(old(rows), {root} + Ids(descendants))
    {
      ghost var before, swept := rows, {root};
      assert rows == Swept(before, {}) && {} + {root} == swept && Ids(descendants[..0]) == {};
      CancelActive(root, before, {});
      for i := 0 to |descendants|
        invariant rows == Swept(before, swept) && swept == {root} + Ids(descendants[..i])
      {
        var n := descendants[i];
        NextIsNew(descendants, i);
        CancelActive(n.id, before, swept);
        swept := swept + {n.id};
      }
      assert descendants[..|descendants|] == descendants;
    }

    lemma DescendantsAreRows(root: nat, descendants: seq<Node>)
      requires Valid() && forall n :: n in descendants ==> Descendant(nodes, root, n)
      ensures Ids(descendants) <= rows.Keys - {root}
    {
      forall n | n in descendants ensures n in nodes {
        var path: seq<Node> :| Leads(nodes, root, path) && Last(path) == n;
        assert ChildOf(nodes, if |path| == 1 then root else path[|path| - 2].id, n);
      }
    }

    lemma SubtreeIs(root: nat, descendants: seq<Node>)
      requires forall n :: n in descendants <==> Descendant(nodes, root, n)
      ensures forall id :: InSubtree(nodes, root, id) <==> id in {root} + Ids(descendants)
    {
    }
  }

  // ---- Answering a paused task ------------------------------------------------------------

  const APPROVAL_WORDS: set<string> := {
    "yes", "y", "approve", "approved", "ok", "okay", "allow", "sure", "proceed",
    "是", "好", "可以", "批准", "同意", "允许"}

  function FirstWord(s: string): string {
    if s == "" || s[0] in " \t\n\r" then "" else [s[0]] + FirstWord(s[1..])
  }

  /**
   A free-text answer approves only if its first word, lower-cased, is one of the words;
   the default is to deny. `lower` is the lower-casing of text, of any alphabet.
   */
  predicate IsApproval(lower: string -> string, answer: string) { FirstWord(lower(Strip(answer))) in APPROVAL_WORDS }

  lemma {:induction false} FirstWordOf(word: string, rest: string)
    requires forall c :: c in word ==> c !in " \t\n\r"
    requires rest == "" || rest[0] in " \t\n\r"
    ensures FirstWord(word + rest) == word
  {
    if word == "" {
      assert word + rest == rest;
    } else {
      assert (word + rest)[1..] == word[1..] + rest && forall c :: c in word[1..] ==> c in word;
      FirstWordOf(word[1..], rest);
      assert word == [word[0]] + word[1..];
    }
  }

  /** Exactly the first word of the lower-cased answer decides, whatever follows it. */
  lemma FirstWordDecides(lower: string -> string, answer: string, word: string, rest: string)
    requires lower(Strip(answer)) == word + rest && forall c :: c in word ==> c !in " \t\n\r"
    requires rest == "" || rest[0] in " \t\n\r"
    ensures IsApproval(lower, answer) <==> word in APPROVAL_WORDS
  {
    FirstWordOf(word, rest);
  }

  function Clarified(notes: seq<string>, answer: string): (r: seq<string>)
    ensures |r| <= 12
  {
    var all := Filter((t: string) => Strip(t) != "", notes) + [Strip(answer)];
    if |all| <= 12 then all else all[|all| - 12..]
  }

  /** The text that replaces the last observation. */
  function AnswerText(lower: string -> string, task: Task, steps: seq<Step>, answer: string): string
    requires steps != []
  {
    if task.pending.Some? then
      Last(steps).content.observation + "\nUser " + (if IsApproval(lower, answer) then "approved" else "denied") + ": " + answer
    else
      "You asked: " + (match task.question case Some(q) => q case None => "None") + "\nUser answered: " + answer
  }

  /** The task and the table after the protocol's answer step. */
  lemma AnswerStep(w: World, approves: bool, observation: string)
    requires w.process == Idle && w.task.row.status == AWAITING_INPUT && ApplyEvent(w.task.row, UserResponded, None).Ok?
    ensures Do(w, DoRespond(approves, observation)).Some?
    ensures var v := Do(w, DoRespond(approves, observation)).value;
            var row := ApplyEvent(w.task.row, UserResponded, None).value;
            && v.task == (if w.task.contract == Clarifying then w.task.(row := row, question := None, contract := Uncompiled)
                          else if w.task.pending.Some? && !approves then w.task.(row := row, question := None, pending := None)
                          else w.task.(row := row, question := None))
            && v.steps == if w.task.contract == Clarifying || w.steps == [] then w.steps else ResealLast(w.steps, observation)
  {
  }

  class PausedTask {
    const lower: string -> string
    var task: Task
    var steps: seq<Step>
    var clarifications: seq<string>

    constructor (lower: string -> string, task: Task, steps: seq<Step>, clarifications: seq<string>)
      ensures this.lower == lower && this.task == task && this.steps == steps && this.clarifications == clarifications
    {
      this.lower, this.task, this.steps, this.clarifications := lower, task, steps, clarifications;
    }

    /** What the protocol makes of the answer. */
    ghost function Answered(w: World, answer: string): Option<World>
      reads this
    {
      Do(w, DoRespond(IsApproval(lower, answer), if steps == [] then "" else AnswerText(lower, task, steps, answer)))
    }

    /**
     The task, the pending action and the re-sealed table become what the protocol's
     answer step says, and the answer is refused exactly when that step is impossible.
     */
    method Respond(answer: string, ghost w: World) returns (ok: bool)
      requires w.process == Idle && w.task == task && w.steps == steps && Consistent(task.row)
      modifies this
      ensures ok == old(Answered(w, answer)).Some?
      ensures ok ==> task == old(Answered(w, answer)).value.task && steps == old(Answered(w, answer)).value.steps
      ensures !ok ==> unchanged(this)
      ensures ok && old(task).contract == Clarifying ==> clarifications == Clarified(old(clarifications), answer)
      ensures old(task).contract != Clarifying ==> clarifications == old(clarifications)
    {
      if task.row.status != AWAITING_INPUT { return false; }
      AnswersAreAllowed(task.row);
      AnswerStep(w, IsApproval(lower, answer), if steps == [] then "" else AnswerText(lower, task, steps, answer));
      RecordAnswer(answer);
      var row := ApplyEvent(task.row, UserResponded, None);
      task := task.(question := None, row := row.value);
      return true;
    }

    /** What the answer decides: a clarification, an approval or its denial, or the reply to a question. */
    method RecordAnswer(answer: string)
      modifies this
      ensures task ==
        if old(task).contract == Clarifying then old(task).(contract := Uncompiled)
        else if old(task).pending.Some? && !IsApproval(lower, answer) then old(task).(pending := None)
        else old(task)
      ensures steps ==
        if old(task).contract == Clarifying || old(steps) == [] then old(steps)
        else ResealLast(old(steps), AnswerText(lower, old(task), old(steps), answer))
      ensures clarifications == if old(task).contract == Clarifying then Clarified(old(clarifications), answer) else old(clarifications)
    {
      var edited := false;
      if task.contract == Clarifying {
        clarifications := Clarified(clarifications, answer);
        task := task.(contract := Uncompiled);
      } else if task.pending.Some? {
        var approved := IsApproval(lower, answer);
        edited := steps != [];
        if edited { EditLast(AnswerText(lower, task, steps, answer)); }
        if !approved { task := task.(pending := None); }
      } else if steps != [] {
        edited := true;
        EditLast(AnswerText(lower, task, steps, answer));
      }
      if edited { SealLast(); }
    }

    lemma AnswersAreAllowed(row: Row)
      requires Consistent(row) && row.status == AWAITING_INPUT
      ensures ApplyEvent(row, UserResponded, None).Ok?
    {
    }

    method EditLast(observation: string)
      requires steps != []
      modifies `steps
      ensures steps == Front(old(steps)) + [Last(old(steps)).(content := Last(old(steps)).content.(observation := observation))]
    {
      var last := Last(steps);
      steps := Front(steps) + [last.(content := last.content.(observation := observation))];
    }

    /** The digest of the last step is computed again from its own columns. */
    method SealLast()
      requires steps != []
      modifies `steps
      ensures steps == ResealLast(old(steps), Last(old(steps)).content.observation)
    {
      var last := Last(steps);
      var prev := match last.prev case Some(d) => d case None => Blank;
      steps := Front(steps) + [last.(hash := StepHash(prev, last.content, last.thought))];
    }
  }
}
