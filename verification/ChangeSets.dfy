/** Trees as maps, patches as per-path old and new contents, applied all or nothing. */
module Patches {
  import opened Basics

  type Tree = map<string, string>

  datatype Delta = Delta(was: Option<string>, becomes: Option<string>)

  type Patch = map<string, Delta>

  function Look(t: Tree, path: string): Option<string> { if path in t then Some(t[path]) else None }

  function Diff(base: Tree, work: Tree): Patch {
    map path | path in base.Keys + work.Keys && Look(base, path) != Look(work, path) :: Delta(Look(base, path), Look(work, path))
  }

  /** The check before a patch is applied: every path is as the patch expects it. */
  predicate Fits(t: Tree, p: Patch) { forall path :: path in p ==> Look(t, path) == p[path].was }

  function After(t: Tree, p: Patch, path: string): Option<string> { if path in p then p[path].becomes else Look(t, path) }

  function Patched(t: Tree, p: Patch): Tree {
    map path | path in t.Keys + p.Keys && After(t, p, path).Some? :: After(t, p, path).value
  }

  function Reverse(p: Patch): Patch { map path | path in p :: Delta(p[path].becomes, p[path].was) }

  lemma DiffLeadsToWork(base: Tree, work: Tree)
    ensures Fits(base, Diff(base, work)) && Patched(base, Diff(base, work)) == work
    ensures forall path :: path in Diff(base, work) ==> Diff(base, work)[path].was != Diff(base, work)[path].becomes
  {
  }

  lemma ReverseUndoes(t: Tree, p: Patch)
    requires Fits(t, p)
    ensures Fits(Patched(t, p), Reverse(p)) && Patched(Patched(t, p), Reverse(p)) == t
  {
  }

  lemma ReverseTwice(p: Patch)
    ensures Reverse(Reverse(p)) == p
  {
  }

}

/**
 Change sets and product revisions of many tasks over one source tree.

 `Do` gives the state after each operation; `ChangeSetService` performs it on fields,
 one write at a time, with the compensation for a commit that raises.
 */
module ChangeSets {
  import opened Basics
  import opened Patches

  datatype ChangeState = Pending | Applied | Reverted | Discarded

  datatype Receipt = Receipt(valid: bool, coversAll: bool, patch: Patch)

  datatype Row = Row(
    state: ChangeState, applied: Option<Patch>, base: Tree,
    session: Option<nat>, revision: nat, previous: Option<nat>, supersededBy: Option<nat>,
    facts: Facts)

  /** What the agent run and its verification leave behind. */
  datatype Facts = Facts(terminal: bool, completed: bool, verified: bool, contractLocked: bool, receipt: Option<Receipt>)

  const UNSTARTED := Facts(false, false, false, false, None)

  datatype World = World(rows: map<nat, Row>, spaces: map<nat, Tree>, saved: map<nat, Patch>, source: Tree, head: Tree)

  /** A commit succeeds; or raises before it is durable; or is durable, and the refresh after it raises. */
  datatype Outcome = Committed | CommitRaised | RefreshRaised

  datatype Refusal =
    | NotFound | WrongState | Superseded | NoChanges | NotCompleted | NotVerified
    | ReceiptInvalid | NotCovered | ReceiptOutdated | SourceMoved | SourceDirty | Conflict
    | RecordMissing | NotRevisable | ContractNotLocked | RaceLost | StoreFailed

  datatype Act =
    | Publish(id: nat, inSession: bool)
    | Work(id: nat, space: Tree)
    | Advance(id: nat, facts: Facts)
    | MoveHead(tree: Tree)
    | Apply(id: nat, outcome: Outcome)
    | Undo(id: nat, outcome: Outcome)
    | Discard(id: nat, outcome: Outcome)
    | Revise(id: nat, next: nat, outcome: Outcome)

  predicate Open(s: ChangeState) { s == Pending || s == Reverted }

  /** What the inspection of a change set finds in the way of applying it. */
  function Blocked(row: Row, patch: Patch): Option<Refusal> {
    if row.supersededBy.Some? then Some(Superseded)
    else if patch == map[] then Some(NoChanges)
    else if !row.facts.completed then Some(NotCompleted)
    else if !row.facts.verified then Some(NotVerified)
    else if !Open(row.state) then None
    else
      match row.facts.receipt
      case None => Some(ReceiptInvalid)
      case Some(receipt) =>
        if !receipt.valid then Some(ReceiptInvalid)
        else if !receipt.coversAll then Some(NotCovered)
        else if receipt.patch != patch then Some(ReceiptOutdated)
        else None
  }

  /** Why the source refuses a patch: it moved, it is dirty where it must be clean, or the patch does not fit. */
  function SourceRefuses(w: World, base: Tree, patch: Patch, clean: bool): Option<Refusal> {
    if base != w.head then Some(SourceMoved)
    else if clean && w.source != w.head then Some(SourceDirty)
    else if !Fits(w.source, patch) then Some(Conflict)
    else None
  }

  predicate Known(w: World, id: nat) { id in w.rows && id in w.spaces }

  function PatchOf(w: World, id: nat): Patch
    requires Known(w, id)
  {
    Diff(w.rows[id].base, w.spaces[id])
  }

  function WhyNotApply(w: World, id: nat): Option<Refusal> {
    if !Known(w, id) then Some(NotFound)
    else if !Open(w.rows[id].state) then Some(WrongState)
    else Blocked(w.rows[id], PatchOf(w, id))
  }

  function DoApply(w: World, id: nat, outcome: Outcome): (World, Option<Refusal>) {
    if WhyNotApply(w, id).Some? then (w, WhyNotApply(w, id))
    else
      var patch := PatchOf(w, id);
      var refused := SourceRefuses(w, w.rows[id].base, patch, true);
      if refused.Some? then (w.(saved := w.saved - {id}), refused)
      else
        var applied := w.rows[id := w.rows[id].(state := Applied, applied := Some(patch))];
        match outcome
        case Committed => (w.(rows := applied, saved := w.saved[id := patch], source := Patched(w.source, patch)), None)
        case CommitRaised => (w.(saved := w.saved - {id}), Some(StoreFailed))
        case RefreshRaised => (w.(rows := applied, saved := w.saved - {id}), Some(StoreFailed))
  }

  function WhyNotUndo(w: World, id: nat): Option<Refusal> {
    if !Known(w, id) then Some(NotFound)
    else if w.rows[id].state != Applied || w.rows[id].applied.None? then Some(WrongState)
    else if id !in w.saved || w.saved[id] != w.rows[id].applied.value then Some(RecordMissing)
    else SourceRefuses(w, w.rows[id].base, Reverse(w.saved[id]), false)
  }

  function DoUndo(w: World, id: nat, outcome: Outcome): (World, Option<Refusal>) {
    if WhyNotUndo(w, id).Some? then (w, WhyNotUndo(w, id))
    else
      var reverted := w.rows[id := w.rows[id].(state := Reverted)];
      match outcome
      case Committed => (w.(rows := reverted, source := Patched(w.source, Reverse(w.saved[id]))), None)
      case CommitRaised => (w, Some(StoreFailed))
      case RefreshRaised => (w.(rows := reverted), Some(StoreFailed))
  }

  function DoDiscard(w: World, id: nat, outcome: Outcome): (World, Option<Refusal>) {
    if !Known(w, id) then (w, Some(NotFound))
    else if !Open(w.rows[id].state) || !w.rows[id].facts.terminal then (w, Some(WrongState))
    else
      var discarded := w.rows[id := w.rows[id].(state := Discarded, applied := None)];
      match outcome
      case Committed => (w.(rows := discarded, saved := w.saved - {id}), None)
      case CommitRaised => (w, Some(StoreFailed))
      case RefreshRaised => (w.(rows := discarded), Some(StoreFailed))
  }

  /** The unique index over session and revision. */
  predicate Taken(w: World, session: nat, revision: nat) {
    exists id :: id in w.rows && w.rows[id].session == Some(session) && w.rows[id].revision == revision
  }

  function WhyNotRevise(w: World, id: nat): Option<Refusal> {
    if !Known(w, id) then Some(NotFound)
    else
      var row := w.rows[id];
      if row.session.None? || row.revision == 0 then Some(NotRevisable)
      else if row.supersededBy.Some? then Some(Superseded)
      else if !row.facts.completed || !row.facts.verified then Some(NotCompleted)
      else if !row.facts.contractLocked then Some(ContractNotLocked)
      else if !Open(row.state) then Some(WrongState)
      else if Blocked(row, PatchOf(w, id)).Some? then Blocked(row, PatchOf(w, id))
      else if w.source != w.head then Some(SourceDirty)
      else if row.base != w.head then Some(SourceMoved)
      else None
  }

  function NewRow(base: Tree, session: Option<nat>, revision: nat, previous: Option<nat>): Row {
    Row(Pending, None, base, session, revision, previous, None, UNSTARTED)
  }

  function DoRevise(w: World, id: nat, next: nat, outcome: Outcome): (World, Option<Refusal>) {
    if WhyNotRevise(w, id).Some? then (w, WhyNotRevise(w, id))
    else
      var row := w.rows[id];
      if next in w.rows || next in w.spaces || Taken(w, row.session.value, row.revision + 1) then (w, Some(RaceLost))
      else if outcome != Committed then (w, Some(StoreFailed))
      else
        var revision := NewRow(w.head, row.session, row.revision + 1, Some(id));
        (w.(rows := w.rows[id := row.(supersededBy := Some(next))][next := revision],
            spaces := w.spaces[next := Patched(w.head, PatchOf(w, id))]),
         None)
  }

  function DoPublish(w: World, id: nat, inSession: bool): (World, Option<Refusal>) {
    if w.source != w.head then (w, Some(SourceDirty))
    else if id in w.rows then (w, Some(RaceLost))
    else
      var row := if inSession then NewRow(w.head, Some(id), 1, None) else NewRow(w.head, None, 0, None);
      (w.(rows := w.rows[id := row], spaces := w.spaces[id := w.head]), None)
  }

  function Do(w: World, a: Act): (World, Option<Refusal>) {
    match a
    case Publish(id, inSession) => DoPublish(w, id, inSession)
    case Work(id, space) => if Known(w, id) then (w.(spaces := w.spaces[id := space]), None) else (w, Some(NotFound))
    case Advance(id, facts) => if Known(w, id) then (w.(rows := w.rows[id := w.rows[id].(facts := facts)]), None) else (w, Some(NotFound))
    case MoveHead(tree) => if w.source == w.head then (w.(source := tree, head := tree), None) else (w, Some(SourceDirty))
    case Apply(id, outcome) => DoApply(w, id, outcome)
    case Undo(id, outcome) => DoUndo(w, id, outcome)
    case Discard(id, outcome) => DoDiscard(w, id, outcome)
    case Revise(id, next, outcome) => DoRevise(w, id, next, outcome)
  }

  // ---- The invariant -----------------------------------------------------------------------

  ghost predicate IsApplied(w: World, id: nat) { id in w.rows && w.rows[id].state == Applied }

  ghost predicate OneApplied(w: World) { forall a, b :: IsApplied(w, a) && IsApplied(w, b) ==> a == b }

  ghost predicate Effective(p: Patch) { p != map[] && forall path :: path in p ==> p[path].was != p[path].becomes }

  /** The applied task's record is intact, and the source is the head with exactly its patch. */
  ghost predicate AppliedIntact(w: World, id: nat)
    requires id in w.rows
  {
    && w.rows[id].supersededBy.None? && w.rows[id].base == w.head
    && id in w.saved && w.rows[id].applied == Some(w.saved[id])
    && Effective(w.saved[id]) && Fits(w.head, w.saved[id]) && w.source == Patched(w.head, w.saved[id])
  }

  ghost predicate SourceInv(w: World) {
    && (forall id :: IsApplied(w, id) ==> AppliedIntact(w, id))
    && ((forall id :: !IsApplied(w, id)) ==> w.source == w.head)
  }

  ghost predicate Follows(w: World, earlier: nat, later: nat) {
    && earlier in w.rows && later in w.rows
    && w.rows[earlier].session == w.rows[later].session && w.rows[earlier].revision + 1 == w.rows[later].revision
    && w.rows[earlier].supersededBy == Some(later) && w.rows[later].previous == Some(earlier)
  }

  ghost predicate Linked(w: World, id: nat)
    requires id in w.rows
  {
    var row := w.rows[id];
    if row.session.None? then row.previous.None? && row.supersededBy.None?
    else
      && row.revision >= 1
      && (if row.revision == 1 then row.previous.None? && row.session == Some(id)
          else row.previous.Some? && Follows(w, row.previous.value, id))
      && (row.supersededBy.Some? ==> Follows(w, id, row.supersededBy.value))
  }

  ghost predicate ChainInv(w: World) { forall id :: id in w.rows ==> Linked(w, id) }

  ghost predicate SameRevision(w: World, a: nat, b: nat) {
    && a in w.rows && b in w.rows && w.rows[a].session.Some?
    && w.rows[a].session == w.rows[b].session && w.rows[a].revision == w.rows[b].revision
  }

  ghost predicate UniqueInv(w: World) { forall a, b :: SameRevision(w, a, b) ==> a == b }

  ghost predicate Inv(w: World) {
    w.spaces.Keys == w.rows.Keys && OneApplied(w) && SourceInv(w) && ChainInv(w) && UniqueInv(w)
  }

  /** The one way to part row and source: the commit is durable, and the refresh after it raises. */
  predicate Diverges(w: World, a: Act) {
    match a
    case Apply(id, outcome) => outcome == RefreshRaised && DoApply(w, id, Committed).1.None?
    case Undo(id, outcome) => outcome == RefreshRaised && DoUndo(w, id, Committed).1.None?
    case _ => false
  }

  lemma KeepsChain(w: World, v: World)
    requires Inv(w) && v.spaces.Keys == v.rows.Keys && v.rows.Keys == w.rows.Keys
    requires forall id :: id in w.rows ==>
      v.rows[id].(state := w.rows[id].state, applied := w.rows[id].applied, facts := w.rows[id].facts) == w.rows[id]
    ensures ChainInv(v) && UniqueInv(v)
  {
    forall id | id in v.rows ensures Linked(v, id) {
      assert Linked(w, id);
    }
    forall a, b | SameRevision(v, a, b) ensures a == b {
      assert SameRevision(w, a, b);
    }
  }

  /** A clean source has no applied task. */
  lemma CleanMeansNoneApplied(w: World)
    requires Inv(w) && w.source == w.head
    ensures forall id :: !IsApplied(w, id)
  {
  }

  lemma ApplyKeeps(w: World, id: nat, outcome: Outcome)
    requires Inv(w) && outcome != RefreshRaised
    ensures Inv(DoApply(w, id, outcome).0)
  {
    if WhyNotApply(w, id).None? {
      if SourceRefuses(w, w.rows[id].base, PatchOf(w, id), true).None? && outcome == Committed {
        AppliedKeeps(w, id);
      } else {
        ForgettingKeeps(w, id);
      }
    }
  }

  lemma AppliedKeeps(w: World, id: nat)
    requires Inv(w) && WhyNotApply(w, id).None? && SourceRefuses(w, w.rows[id].base, PatchOf(w, id), true).None?
    ensures Inv(DoApply(w, id, Committed).0)
  {
    var v := DoApply(w, id, Committed).0;
    DiffLeadsToWork(w.rows[id].base, w.spaces[id]);
    KeepsChain(w, v);
    CleanMeansNoneApplied(w);
    forall x: nat ensures IsApplied(v, x) <==> x == id {
      assert !IsApplied(w, x);
    }
    assert IsApplied(v, id) && AppliedIntact(v, id);
  }

  /** Only the record of a task that is not applied may be deleted. */
  lemma ForgettingKeeps(w: World, id: nat)
    requires Inv(w) && !IsApplied(w, id)
    ensures Inv(w.(saved := w.saved - {id}))
  {
    var v := w.(saved := w.saved - {id});
    KeepsChain(w, v);
    assert forall x :: IsApplied(v, x) <==> IsApplied(w, x);
    forall x | IsApplied(v, x) ensures AppliedIntact(v, x) {
      assert AppliedIntact(w, x);
    }
  }

  lemma UndoKeeps(w: World, id: nat, outcome: Outcome)
    requires Inv(w) && outcome != RefreshRaised
    ensures Inv(DoUndo(w, id, outcome).0)
  {
    var v := DoUndo(w, id, outcome).0;
    if WhyNotUndo(w, id).None? && outcome == Committed {
      assert IsApplied(w, id) && AppliedIntact(w, id);
      ReverseUndoes(w.head, w.saved[id]);
      KeepsChain(w, v);
      forall x: nat ensures !IsApplied(v, x) {
        assert IsApplied(v, x) ==> IsApplied(w, x) && x != id;
      }
    }
  }

  lemma DiscardKeeps(w: World, id: nat, outcome: Outcome)
    requires Inv(w)
    ensures Inv(DoDiscard(w, id, outcome).0)
  {
    var v := DoDiscard(w, id, outcome).0;
    if Known(w, id) && Open(w.rows[id].state) && w.rows[id].facts.terminal && outcome != CommitRaised {
      assert !IsApplied(w, id);
      KeepsChain(w, v);
      assert forall x :: IsApplied(v, x) <==> IsApplied(w, x);
      forall x | IsApplied(v, x) ensures AppliedIntact(v, x) {
        assert AppliedIntact(w, x);
      }
    }
  }

  /** The unique index never fires: the latest revision is the last of its session. */
  lemma NextRevisionIsFree(w: World, id: nat)
    requires Inv(w) && id in w.rows && w.rows[id].session.Some? && w.rows[id].supersededBy.None?
    ensures !Taken(w, w.rows[id].session.value, w.rows[id].revision + 1)
  {
    forall x | x in w.rows && w.rows[x].session == w.rows[id].session ensures w.rows[x].revision != w.rows[id].revision + 1 {
      if w.rows[x].revision == w.rows[id].revision + 1 {
        assert Linked(w, id) && Linked(w, x) && Follows(w, w.rows[x].previous.value, x);
        assert SameRevision(w, w.rows[x].previous.value, id);
      }
    }
  }

  lemma ReviseKeeps(w: World, id: nat, next: nat, outcome: Outcome)
    requires Inv(w)
    ensures Inv(DoRevise(w, id, next, outcome).0)
  {
    if DoRevise(w, id, next, outcome).1.None? {
      NewRevisionKeeps(w, id, next, DoRevise(w, id, next, outcome).0);
    }
  }

  lemma RevisingAppliesNothing(w: World, id: nat, next: nat, v: World)
    requires Inv(w) && DoRevise(w, id, next, Committed) == (v, None)
    ensures OneApplied(v) && SourceInv(v)
  {
    RevisingKeepsStates(w, id, next, v);
    NoneAppliedKeeps(w, v);
  }

  lemma RevisingKeepsStates(w: World, id: nat, next: nat, v: World)
    requires DoRevise(w, id, next, Committed) == (v, None)
    ensures v.source == v.head == w.source == w.head
    ensures forall x :: x in v.rows ==> v.rows[x].state == if x in w.rows then w.rows[x].state else Pending
  {
  }

  lemma NewRevisionKeeps(w: World, id: nat, next: nat, v: World)
    requires Inv(w) && DoRevise(w, id, next, Committed) == (v, None)
    ensures Inv(v)
  {
    RevisingAppliesNothing(w, id, next, v);
    ReviseKeepsLinks(w, id, next, v);
    ReviseKeepsUnique(w, id, next, v);
  }

  lemma ReviseKeepsUnique(w: World, id: nat, next: nat, v: World)
    requires Inv(w) && DoRevise(w, id, next, Committed) == (v, None)
    ensures UniqueInv(v)
  {
    var row := w.rows[id];
    assert !Taken(w, row.session.value, row.revision + 1);
    assert forall x :: x in w.rows ==> v.rows[x].session == w.rows[x].session && v.rows[x].revision == w.rows[x].revision;
    forall a: nat, b: nat | SameRevision(v, a, b) ensures a == b {
      if a != next && b != next {
        assert SameRevision(w, a, b);
      }
    }
  }

  lemma NoneAppliedKeeps(w: World, v: World)
    requires Inv(w) && w.source == w.head && v.source == v.head
    requires forall x :: x in v.rows ==> v.rows[x].state == if x in w.rows then w.rows[x].state else Pending
    ensures OneApplied(v) && SourceInv(v)
  {
    CleanMeansNoneApplied(w);
    forall x: nat ensures !IsApplied(v, x) {
      assert !IsApplied(w, x);
    }
  }

  lemma ReviseKeepsLinks(w: World, id: nat, next: nat, v: World)
    requires Inv(w) && DoRevise(w, id, next, Committed) == (v, None)
    ensures ChainInv(v)
  {
    assert Linked(w, id);
    assert Follows(v, id, next);
    forall x | x in v.rows ensures Linked(v, x) {
      if x != next {
        assert Linked(w, x);
        LinksSurvive(w, id, next, v, x);
      }
    }
  }

  lemma LinksSurvive(w: World, id: nat, next: nat, v: World, x: nat)
    requires Inv(w) && DoRevise(w, id, next, Committed) == (v, None) && x in w.rows && Linked(w, x)
    ensures Linked(v, x)
  {
    var row := w.rows[x];
    if row.session.Some? && row.revision > 1 {
      assert Follows(v, row.previous.value, x);
    }
    if row.session.Some? && row.supersededBy.Some? {
      assert Follows(v, x, row.supersededBy.value);
    }
  }

  lemma PublishKeeps(w: World, id: nat, inSession: bool)
    requires Inv(w)
    ensures Inv(DoPublish(w, id, inSession).0)
  {
    var v := DoPublish(w, id, inSession).0;
    if DoPublish(w, id, inSession).1.None? {
      NoneAppliedKeeps(w, v);
      forall x | x in v.rows ensures Linked(v, x) {
        if x != id {
          assert Linked(w, x);
        }
      }
      forall a: nat, b: nat | SameRevision(v, a, b) ensures a == b {
        if a != id && b != id {
          assert SameRevision(w, a, b);
        } else if a != b {
          SessionIsNew(w, id, if a == id then b else a);
        }
      }
    }
  }

  /** A new task's id names no session yet: a session is named after its first task. */
  lemma {:induction false} SessionIsNew(w: World, id: nat, x: nat)
    requires Inv(w) && id !in w.rows && x in w.rows
    ensures w.rows[x].session != Some(id)
    decreases w.rows[x].revision
  {
    assert Linked(w, x);
    if w.rows[x].session.Some? && w.rows[x].revision > 1 {
      SessionIsNew(w, id, w.rows[x].previous.value);
    }
  }

  /** An applied change set can always be undone, and undoing it restores the head. */
  lemma UndoIsAlwaysPossible(w: World, id: nat)
    requires Inv(w) && IsApplied(w, id)
    ensures DoUndo(w, id, Committed).1.None? && DoUndo(w, id, Committed).0.source == w.head
  {
  }

  /**
   The compensation presumes that nothing raises after the commit is durable. If the
   refresh does, the row and the source part ways; in every other case they stay together.
   */
  lemma ApplyStaysConsistentIff(w: World, id: nat, outcome: Outcome)
    requires Inv(w) && DoApply(w, id, Committed).1.None?
    ensures Inv(DoApply(w, id, outcome).0) <==> outcome != RefreshRaised
  {
    if outcome == RefreshRaised {
      var v := DoApply(w, id, outcome).0;
      assert IsApplied(v, id) && id !in v.saved && !AppliedIntact(v, id);
    } else {
      ApplyKeeps(w, id, outcome);
    }
  }

  lemma UndoStaysConsistentIff(w: World, id: nat, outcome: Outcome)
    requires Inv(w) && IsApplied(w, id)
    ensures Inv(DoUndo(w, id, outcome).0) <==> outcome != RefreshRaised
  {
    UndoIsAlwaysPossible(w, id);
    if outcome == RefreshRaised {
      var v := DoUndo(w, id, outcome).0;
      forall x: nat ensures !IsApplied(v, x) {
        assert IsApplied(v, x) ==> IsApplied(w, x) && x != id;
      }
      if v.source == v.head {
        CleanMeansNoneApplied(w);
      }
    } else {
      UndoKeeps(w, id, outcome);
    }
  }

  /** Every operation, with every outcome of its commit, keeps the invariant unless it diverges; and then it does not. */
  lemma StepKeepsInv(w: World, a: Act)
    requires Inv(w)
    ensures Inv(Do(w, a).0) <==> !Diverges(w, a)
  {
    match a
    case Publish(id, inSession) => PublishKeeps(w, id, inSession);
    case Work(id, space) => OutsideKeeps(w, Do(w, a).0);
    case Advance(id, facts) => OutsideKeeps(w, Do(w, a).0);
    case MoveHead(tree) => MoveKeeps(w, tree);
    case Apply(id, outcome) =>
      if DoApply(w, id, Committed).1.None? {
        ApplyStaysConsistentIff(w, id, outcome);
      } else {
        ApplyKeeps(w, id, Committed);
        assert DoApply(w, id, outcome) == DoApply(w, id, Committed);
      }
    case Undo(id, outcome) =>
      if DoUndo(w, id, Committed).1.None? {
        UndoStaysConsistentIff(w, id, outcome);
      }
    case Discard(id, outcome) => DiscardKeeps(w, id, outcome);
    case Revise(id, next, outcome) => ReviseKeeps(w, id, next, outcome);
  }

  lemma OutsideKeeps(w: World, v: World)
    requires Inv(w) && v.rows.Keys == w.rows.Keys == v.spaces.Keys
    requires v.saved == w.saved && v.source == w.source && v.head == w.head
    requires forall id :: id in w.rows ==> v.rows[id].(facts := w.rows[id].facts) == w.rows[id]
    ensures Inv(v)
  {
    KeepsChain(w, v);
    assert forall x :: IsApplied(v, x) <==> IsApplied(w, x);
    forall x | IsApplied(v, x) ensures AppliedIntact(v, x) {
      assert AppliedIntact(w, x);
    }
  }

  lemma MoveKeeps(w: World, tree: Tree)
    requires Inv(w)
    ensures Inv(Do(w, MoveHead(tree)).0)
  {
    var v := Do(w, MoveHead(tree)).0;
    if w.source == w.head {
      CleanMeansNoneApplied(w);
      KeepsChain(w, v);
      assert forall x :: IsApplied(v, x) <==> IsApplied(w, x);
    }
  }

  // ---- Over every run ----------------------------------------------------------------------

  function Exec(w: World, acts: seq<Act>): World {
    if acts == [] then w else Do(Exec(w, Front(acts)), Last(acts)).0
  }

  function Start(tree: Tree): World { World(map[], map[], map[], tree, tree) }

  /** No act diverges when its turn comes. */
  predicate Together(w: World, acts: seq<Act>) {
    acts == [] || (Together(w, Front(acts)) && !Diverges(Exec(w, Front(acts)), Last(acts)))
  }

  lemma {:induction false} RunKeepsInv(tree: Tree, acts: seq<Act>)
    requires Together(Start(tree), acts)
    ensures Inv(Exec(Start(tree), acts))
  {
    if acts != [] {
      RunKeepsInv(tree, Front(acts));
      StepKeepsInv(Exec(Start(tree), Front(acts)), Last(acts));
    }
  }

  /**
   On every run, commit failures included: at most one task is applied, no superseded
   one is, and the source is the head, with exactly the applied task's patch if there is one.
   */
  lemma OneTreeManyTasks(tree: Tree, acts: seq<Act>)
    requires Together(Start(tree), acts)
    ensures var w := Exec(Start(tree), acts);
            && (forall a: nat, b: nat :: IsApplied(w, a) && IsApplied(w, b) ==> a == b)
            && (forall id: nat :: IsApplied(w, id) ==>
                  w.rows[id].supersededBy.None? && w.rows[id].applied.Some? && w.source == Patched(w.head, w.rows[id].applied.value))
            && ((forall id: nat :: !IsApplied(w, id)) <==> w.source == w.head)
  {
    var w := Exec(Start(tree), acts);
    RunKeepsInv(tree, acts);
    forall id: nat | IsApplied(w, id) ensures AppliedIntact(w, id) {
    }
    if w.source == w.head {
      CleanMeansNoneApplied(w);
    }
  }

  ghost predicate HasRevision(w: World, session: nat, revision: nat, id: nat) {
    id in w.rows && w.rows[id].session == Some(session) && w.rows[id].revision == revision
  }

  /** The revisions of a session are consecutive from one, without gap or repetition. */
  lemma {:induction false} RevisionsAreConsecutive(w: World, id: nat, revision: nat)
    requires Inv(w) && id in w.rows && w.rows[id].session.Some? && 1 <= revision <= w.rows[id].revision
    ensures exists x :: HasRevision(w, w.rows[id].session.value, revision, x)
    ensures forall x, y ::
      HasRevision(w, w.rows[id].session.value, revision, x) && HasRevision(w, w.rows[id].session.value, revision, y) ==> x == y
    decreases w.rows[id].revision
  {
    var session := w.rows[id].session.value;
    forall x: nat, y: nat | HasRevision(w, session, revision, x) && HasRevision(w, session, revision, y) ensures x == y {
      assert SameRevision(w, x, y);
    }
    if revision == w.rows[id].revision {
      assert HasRevision(w, session, revision, id);
    } else {
      assert Linked(w, id);
      RevisionsAreConsecutive(w, w.rows[id].previous.value, revision);
    }
  }

  ghost predicate Latest(w: World, session: nat, latest: nat) {
    latest in w.rows && w.rows[latest].session == Some(session) && w.rows[latest].supersededBy.None?
  }

  /** Every session has exactly one revision that nothing supersedes, and it has the highest number. */
  lemma LatestExistsOnce(w: World, session: nat, id: nat)
    requires Inv(w) && id in w.rows && w.rows[id].session == Some(session)
    ensures exists latest :: Latest(w, session, latest) && w.rows[id].revision <= w.rows[latest].revision
    ensures forall a, b :: Latest(w, session, a) && Latest(w, session, b) ==> a == b
  {
    var top := HighestRevision(w, w.rows.Keys, session, id);
    assert Linked(w, top);
    assert Latest(w, session, top);
    forall a: nat, b: nat | Latest(w, session, a) && Latest(w, session, b) ensures a == b {
      LatestIsLast(w, a, b);
    }
  }

  /** Among some rows, one of the session whose number none of the others of the session exceeds. */
  lemma {:induction false} HighestRevision(w: World, ids: set<nat>, session: nat, id: nat) returns (top: nat)
    requires ids <= w.rows.Keys && id in ids && w.rows[id].session == Some(session)
    ensures top in ids && w.rows[top].session == Some(session)
    ensures forall x :: x in ids && w.rows[x].session == Some(session) ==> w.rows[x].revision <= w.rows[top].revision
    decreases |ids|
  {
    if x :| x in ids && x != id && w.rows[x].session == Some(session) {
      var lower, higher := if w.rows[x].revision <= w.rows[id].revision then x else id,
                           if w.rows[x].revision <= w.rows[id].revision then id else x;
      top := HighestRevision(w, ids - {lower}, session, higher);
    } else {
      top := id;
    }
  }

  /** The revision that nothing supersedes has the highest number, and is the only one. */
  lemma {:induction false} LatestIsLast(w: World, latest: nat, id: nat)
    requires Inv(w) && latest in w.rows && id in w.rows
    requires w.rows[latest].session.Some? && w.rows[id].session == w.rows[latest].session && w.rows[latest].supersededBy.None?
    ensures w.rows[id].revision <= w.rows[latest].revision
    ensures w.rows[id].supersededBy.None? ==> id == latest
  {
    if w.rows[id].revision > w.rows[latest].revision {
      assert Linked(w, latest);
      RevisionsAreConsecutive(w, id, w.rows[latest].revision + 1);
      NextRevisionIsFree(w, latest);
    } else if w.rows[id].revision < w.rows[latest].revision && w.rows[id].supersededBy.None? {
      assert Linked(w, id);
      RevisionsAreConsecutive(w, latest, w.rows[id].revision + 1);
      NextRevisionIsFree(w, id);
    } else if w.rows[id].revision == w.rows[latest].revision {
      assert SameRevision(w, id, latest);
    }
  }

  lemma ApplyThenUndo(w: World, id: nat)
    requires Inv(w) && DoApply(w, id, Committed).1.None?
    ensures var v := DoApply(w, id, Committed).0;
            && v.source == w.spaces[id]
            && DoUndo(v, id, Committed).1.None? && DoUndo(v, id, Committed).0.source == w.source
  {
    DiffLeadsToWork(w.rows[id].base, w.spaces[id]);
    ApplyKeeps(w, id, Committed);
    var v := DoApply(w, id, Committed).0;
    assert IsApplied(v, id);
    UndoIsAlwaysPossible(v, id);
  }

  /** A revision starts from exactly the delivery it revises: the seeding check cannot fail. */
  lemma {:induction false} RevisionReproducesDelivery(w: World, id: nat, next: nat)
    requires Inv(w) && DoRevise(w, id, next, Committed).1.None?
    ensures var v := DoRevise(w, id, next, Committed).0;
            v.spaces[next] == w.spaces[id] && PatchOf(v, next) == PatchOf(w, id)
  {
    var v := DoRevise(w, id, next, Committed).0;
    DiffLeadsToWork(w.head, w.spaces[id]);
    assert v.rows[next].base == w.head == w.rows[id].base && v.spaces[next] == Patched(w.head, PatchOf(w, id));
  }

  /** No commit race can be lost while the source lock is held. */
  lemma RevisionNeverRaces(w: World, id: nat, next: nat, outcome: Outcome)
    requires Inv(w) && next !in w.rows
    ensures DoRevise(w, id, next, outcome).1 != Some(RaceLost)
  {
    if WhyNotRevise(w, id).None? {
      NextRevisionIsFree(w, id);
    } else if Known(w, id) {
      BlockedIsNoRace(w.rows[id], PatchOf(w, id));
    }
  }

  lemma BlockedIsNoRace(row: Row, patch: Patch)
    ensures Blocked(row, patch) != Some(RaceLost)
  {
  }

  // ---- The service -----------------------------------------------------------------------------

  class ChangeSetService {
    var rows: map<nat, Row>
    var spaces: map<nat, Tree>
    var saved: map<nat, Patch>
    var source: Tree
    var head: Tree

    function State(): World
      reads this
    {
      World(rows, spaces, saved, source, head)
    }

    constructor (tree: Tree)
      ensures State() == Start(tree)
    {
      rows, spaces, saved, source, head := map[], map[], map[], tree, tree;
    }

    /** The check and the application of one patch; `clean` demands an unmodified source. */
    method ApplyPatch(base: Tree, patch: Patch, clean: bool) returns (refused: Option<Refusal>)
      modifies `source
      ensures refused == SourceRefuses(old(State()), base, patch, clean)
      ensures source == if refused.Some? then old(source) else Patched(old(source), patch)
    {
      if base != head { return Some(SourceMoved); }
      if clean && source != head { return Some(SourceDirty); }
      if !Fits(source, patch) { return Some(Conflict); }
      source := Patched(source, patch);
      return None;
    }

    method Apply(id: nat, outcome: Outcome) returns (refused: Option<Refusal>)
      modifies this
      ensures (State(), refused) == DoApply(old(State()), id, outcome)
    {
      refused := WhyNotApply(State(), id);
      if refused.Some? { return; }
      var row, patch := rows[id], PatchOf(State(), id);
      saved := saved[id := patch];
      assert saved - {id} == old(saved) - {id};
      ghost var before := source;
      refused := ApplyPatch(row.base, patch, true);
      if refused.Some? {
        saved := saved - {id};
        return;
      }
      refused := CommitApplied(id, patch, outcome, before);
    }

    /** The row becomes applied, durably unless the commit raised; whatever raised, the patch is taken back. */
    method CommitApplied(id: nat, patch: Patch, outcome: Outcome, ghost before: Tree) returns (refused: Option<Refusal>)
      requires id in rows && rows[id].base == head && Fits(before, patch) && source == Patched(before, patch)
      modifies `rows, `source, `saved
      ensures refused == if outcome == Committed then None else Some(StoreFailed)
      ensures rows == if outcome == CommitRaised then old(rows)
                      else old(rows)[id := old(rows)[id].(state := Applied, applied := Some(patch))]
      ensures source == if outcome == Committed then old(source) else before
      ensures saved == if outcome == Committed then old(saved) else old(saved) - {id}
    {
      var row := rows[id];
      if outcome != CommitRaised {
        rows := rows[id := row.(state := Applied, applied := Some(patch))];
      }
      if outcome == Committed { return None; }
      Restore(id, row.base, patch, before);
      return Some(StoreFailed);
    }

    /** The compensation: the patch just applied is reversed, and its record deleted. */
    method Restore(id: nat, base: Tree, patch: Patch, ghost before: Tree)
      requires base == head && Fits(before, patch) && source == Patched(before, patch)
      modifies `source, `saved
      ensures source == before && saved == old(saved) - {id}
    {
      ReverseUndoes(before, patch);
      var failed := ApplyPatch(base, Reverse(patch), false);
      saved := saved - {id};
    }

    method Undo(id: nat, outcome: Outcome) returns (refused: Option<Refusal>)
      modifies this
      ensures (State(), refused) == DoUndo(old(State()), id, outcome)
    {
      if !Known(State(), id) { return Some(NotFound); }
      var row := rows[id];
      if row.state != ChangeState.Applied || row.applied.None? { return Some(WrongState); }
      if id !in saved || saved[id] != row.applied.value { return Some(RecordMissing); }
      var patch := saved[id];
      ghost var before := source;
      refused := ApplyPatch(row.base, Reverse(patch), false);
      if refused.Some? { return; }
      if outcome != CommitRaised {
        rows := rows[id := row.(state := Reverted)];
      }
      if outcome != Committed {
        ReverseUndoes(before, Reverse(patch));
        ReverseTwice(patch);
        var failed := ApplyPatch(row.base, patch, false);
        return Some(StoreFailed);
      }
    }

    method Discard(id: nat, outcome: Outcome) returns (refused: Option<Refusal>)
      modifies this
      ensures (State(), refused) == DoDiscard(old(State()), id, outcome)
    {
      if !Known(State(), id) { return Some(NotFound); }
      if !Open(rows[id].state) || !rows[id].facts.terminal { return Some(WrongState); }
      if outcome == CommitRaised { return Some(StoreFailed); }
      rows := rows[id := rows[id].(state := Discarded, applied := None)];
      if outcome == RefreshRaised { return Some(StoreFailed); }
      saved := saved - {id};
      return None;
    }

    method CreateRevision(id: nat, next: nat, outcome: Outcome) returns (refused: Option<Refusal>)
      modifies this
      ensures (State(), refused) == DoRevise(old(State()), id, next, outcome)
    {
      refused := WhyNotRevise(State(), id);
      if refused.Some? { return; }
      var row, patch := rows[id], PatchOf(State(), id);
      if next in rows || next in spaces || Taken(State(), row.session.value, row.revision + 1) { return Some(RaceLost); }
      var staged := rows[id := row.(supersededBy := Some(next))][next := NewRow(head, row.session, row.revision + 1, Some(id))];
      spaces := spaces[next := Patched(head, patch)];
      if outcome != Committed {
        spaces := spaces - {next};
        assert spaces == old(spaces);
        return Some(StoreFailed);
      }
      rows := staged;
    }
  }
}
