/**
 One task, its durable row and step table, and the process that may be running it.

 `Do` is one atomic step of the whole system: a commit, one in-memory transition, one
 side effect, an answer, a cancellation, a crash or a reconciliation. What a crash loses
 is exactly `process`. `executed` and `recorded` are history: the side effects that
 happened, and those whose step was committed.
 */
module RunProtocol {
  import opened Basics
  import opened LoopPolicy
  import opened Ledger

  /** A journaled operation. `origin` is the number of the paused step it was approved from. */
  datatype Op = Op(id: nat, number: nat, tool: Tool, args: Args, origin: Option<nat>)

  datatype Pending = Pending(step: nat, tool: Tool, args: Args)

  datatype ContractState = NotRequired | Uncompiled | Clarifying | Locked

  datatype Task = Task(
    row: Row,
    journal: Option<Op>,
    pending: Option<Pending>,
    question: Option<string>,
    contract: ContractState,
    stepsUsed: nat)

  datatype Phase = Claimed | Ready | Begun(op: Op) | Ran(op: Op)

  /** A live process holds its own copy of the row and, once history is rebuilt, the chain head. */
  datatype Process = Idle | Live(row: Row, phase: Phase, head: Option<Digest>)

  datatype World = World(
    id: nat,
    maxSteps: nat,
    task: Task,
    steps: seq<Step>,
    process: Process,
    issued: set<nat>,
    approved: set<nat>,
    executed: seq<Op>,
    recorded: seq<Op>)

  datatype Act =
    | DoClaim
    | DoRefuse
    | DoProceed
    | DoRebuild
    | DoTransition(event: LoopEvent, stop: Option<StopReason>)
    | DoCommit(contract: ContractState, question: Option<string>, pause: Option<Pending>)
    | DoBegin(op: Op)
    | DoExecute
    | DoRecord(content: Content, thought: string)
    | DoRespond(approves: bool, observation: string)
    | DoCancel
    | DoCrash
    | DoReconcile(requeue: bool)

  predicate ExternalTool(t: Tool) { t == SendEmail || t == CreateEvent }

  /** The arguments an operation runs with: the id is added for sends and events only. */
  function ExecutionArgs(tool: Tool, args: Args, id: nat): Args {
    if ExternalTool(tool) then args.(operation := Some(id)) else args
  }

  /** Events the run loop itself applies. */
  predicate AgentEvent(e: LoopEvent) {
    e != Claim && e != Recover && e != UserResponded && e != Cancel
  }

  predicate Executing(c: ContractState) { c == NotRequired || c == Locked }

  /** After a commit the process goes on only while the row says it is running. */
  function Onward(row: Row, phase: Phase, head: Option<Digest>): Process {
    if row.status == RUNNING then Live(row, phase, head) else Idle
  }

  predicate CanBegin(w: World, op: Op) {
    && w.process.Live? && w.process.phase == Ready && w.process.head.Some?
    && w.process.row.state == Acting
    && op.id !in w.issued
    && op.number == w.task.stepsUsed + 1
    && match w.task.pending {
         case None => op.origin == None && !ExternalTool(op.tool) && op.number <= w.maxSteps
         case Some(p) =>
           && op.origin == Some(p.step) && op.tool == p.tool
           && op.args == ExecutionArgs(p.tool, p.args, op.id)
       }
    && Executing(w.task.contract)
  }

  /** A step that says an operation succeeded; a finish and a question are no operations. */
  predicate ClaimsEffect(content: Content) {
    content.status == OK && content.tool != Finish && content.tool != AskUser
  }

  predicate CanRecord(w: World, content: Content) {
    && w.process.Live? && w.process.head.Some?
    && content.number == w.task.stepsUsed + 1
    && match w.process.phase {
         case Claimed => false
         case Ready => w.task.pending == None && content.number <= w.maxSteps && !ClaimsEffect(content)
         case Begun(op) => op.origin == None && content.tool == op.tool && content.args == op.args && !ClaimsEffect(content)
         case Ran(op) => content.tool == op.tool && content.args == op.args
       }
  }

  predicate CanCommit(w: World, contract: ContractState, pause: Option<Pending>) {
    && w.process.Live? && w.process.phase != Claimed
    && (contract == w.task.contract || (w.task.contract == Uncompiled && w.process.phase == Ready))
    && (contract == Clarifying && contract != w.task.contract ==> w.process.row.status == AWAITING_INPUT)
    && (w.process.row.status == AWAITING_INPUT ==> w.process.phase == Ready && w.task.pending == None)
    && (pause.Some? <==> w.process.row.state == AwaitingApproval)
    && (pause.Some? ==>
          && w.process.phase == Ready && w.task.pending == None && Executing(w.task.contract)
          && contract == w.task.contract
          && w.steps != [] && pause.value.step == w.task.stepsUsed <= w.maxSteps
          && Last(w.steps).content.tool == pause.value.tool && Last(w.steps).content.args == pause.value.args)
  }

  /** A commit makes the process's row durable, with the columns it set. */
  function Commit(w: World, contract: ContractState, question: Option<string>, pause: Option<Pending>): World
    requires w.process.Live?
  {
    w.(task := w.task.(row := w.process.row, contract := contract, question := question,
                       pending := if pause.Some? then pause else w.task.pending),
       process := Onward(w.process.row, w.process.phase, w.process.head))
  }

  /** The write-ahead commit: the journal is set, and an approved action is taken, together. */
  function Begin(w: World, op: Op): World
    requires w.process.Live?
  {
    w.(task := w.task.(row := w.process.row, journal := Some(op), pending := None),
       process := w.process.(phase := Begun(op)),
       issued := w.issued + {op.id})
  }

  /** The step, the emptied journal and the counter, in one commit. */
  function Record(w: World, content: Content, thought: string): World
    requires w.process.Live? && w.process.head.Some?
  {
    var step := NewStep(w.process.head.value, content, thought);
    w.(task := w.task.(row := w.process.row, journal := None, stepsUsed := w.task.stepsUsed + 1),
       steps := w.steps + [step],
       process := Onward(w.process.row, Ready, Some(step.hash)),
       recorded := if w.process.phase.Ran? then w.recorded + [w.process.phase.op] else w.recorded)
  }

  function Do(w: World, a: Act): Option<World> {
    match a
    case DoClaim =>
      if w.process == Idle then
        match ClaimRow(w.task.row)
        case Some(row) => Some(w.(task := w.task.(row := row), process := Live(row, Claimed, None)))
        case None => None
      else None
    case DoRefuse =>
      if w.process.Live? && w.process.phase == Claimed && w.task.journal.Some? then
        match ApplyEvent(w.task.row, Fail, None)
        case Ok(row) => Some(w.(task := w.task.(row := row), process := Idle))
        case Err(_) => None
      else None
    case DoProceed =>
      if w.process.Live? && w.process.phase == Claimed && w.task.journal == None then
        Some(w.(process := w.process.(phase := Ready)))
      else None
    case DoRebuild =>
      if w.process.Live? && w.process.phase == Ready then
        Some(w.(process := w.process.(head := Some(Head(w.id, w.steps)))))
      else None
    case DoTransition(e, stop) =>
      if w.process.Live? && w.process.phase != Claimed && AgentEvent(e) then
        match ApplyEvent(w.process.row, e, stop)
        case Ok(row) => Some(w.(process := w.process.(row := row)))
        case Err(_) => None
      else None
    case DoCommit(contract, question, pause) =>
      if CanCommit(w, contract, pause) then Some(Commit(w, contract, question, pause)) else None
    case DoBegin(op) =>
      if CanBegin(w, op) then Some(Begin(w, op)) else None
    case DoExecute =>
      if w.process.Live? && w.process.phase.Begun? then
        Some(w.(process := w.process.(phase := Ran(w.process.phase.op)),
                executed := w.executed + [w.process.phase.op]))
      else None
    case DoRecord(content, thought) =>
      if CanRecord(w, content) then Some(Record(w, content, thought)) else None
    case DoRespond(approves, observation) =>
      if w.process == Idle && w.task.row.status == AWAITING_INPUT then
        match ApplyEvent(w.task.row, UserResponded, None)
        case Err(_) => None
        case Ok(row) =>
          var task := w.task.(row := row, question := None);
          if task.contract == Clarifying then
            Some(w.(task := task.(contract := Uncompiled)))
          else if task.pending.Some? then
            Some(w.(
              task := task.(pending := if approves then task.pending else None),
              approved := if approves then w.approved + {task.pending.value.step} else w.approved,
              steps := if w.steps == [] then [] else ResealLast(w.steps, observation)))
          else
            Some(w.(task := task, steps := if w.steps == [] then [] else ResealLast(w.steps, observation)))
      else None
    case DoCancel =>
      (match ApplyEvent(w.task.row, Cancel, None)
       case Ok(row) => Some(w.(task := w.task.(row := row), process := Idle))
       case Err(_) => None)
    case DoCrash =>
      if w.process.Live? then Some(w.(process := Idle)) else None
    case DoReconcile(requeue) =>
      if w.process == Idle then
        match ReconcileRow(w.task.row, requeue)
        case Some(row) => Some(w.(task := w.task.(row := row)))
        case None => None
      else None
  }

  /** A run: every act must be possible when its turn comes. */
  function Exec(w: World, acts: seq<Act>): Option<World> {
    if acts == [] then Some(w)
    else
      match Exec(w, Front(acts))
      case None => None
      case Some(before) => Do(before, Last(acts))
  }

  /** The states a run goes through, one more than its acts. */
  ghost predicate Chain(worlds: seq<World>, acts: seq<Act>) {
    |worlds| == |acts| + 1 && forall i {:trigger acts[i]} :: 0 <= i < |acts| ==> Do(worlds[i], acts[i]) == Some(worlds[i + 1])
  }

  lemma {:induction false} ChainIsRun(worlds: seq<World>, acts: seq<Act>)
    requires Chain(worlds, acts)
    ensures Exec(worlds[0], acts) == Some(worlds[|acts|])
    decreases |acts|
  {
    if acts != [] {
      assert forall i :: 0 <= i < |acts| - 1 ==> Front(acts)[i] == acts[i];
      ChainIsRun(Front(worlds), Front(acts));
      assert Do(worlds[|acts| - 1], acts[|acts| - 1]) == Some(worlds[|acts|]);
    }
  }

  function Publish(id: nat, maxSteps: nat, contract: ContractState, attempt: nat): World {
    World(id, maxSteps, Task(Published(attempt), None, None, None, contract, 0), [], Idle, {}, {}, [], [])
  }

  // ---- The invariant, one concern at a time -----------------------------------

  ghost predicate RowInv(w: World) {
    && Consistent(w.task.row)
    && (w.process.Live? ==>
          w.task.row.status == RUNNING && Consistent(w.process.row) && w.process.row.state != Queued)
    && (w.process.Live? && w.process.phase == Claimed ==> w.process.row == w.task.row && w.process.head == None)
  }

  ghost predicate LedgerInv(w: World) {
    && Verified(w.id, w.steps)
    && |w.steps| == w.task.stepsUsed
    && (forall i :: 0 <= i < |w.steps| ==> w.steps[i].content.number == i + 1)
    && (w.process.Live? && w.process.head.Some? ==> w.process.head.value == Head(w.id, w.steps))
  }

  /** The journal is empty exactly when every side effect has its step. */
  ghost predicate JournalInv(w: World) {
    && (w.task.journal == None ==> w.executed == w.recorded)
    && (w.task.journal.Some? ==>
          && (w.executed == w.recorded || w.executed == w.recorded + [w.task.journal.value])
          && w.task.pending == None
          && w.task.row.status != AWAITING_INPUT)
    && (w.process.Live? ==>
          match w.process.phase
          case Claimed => true
          case Ready => w.task.journal == None
          case Begun(op) => w.task.journal == Some(op) && w.executed == w.recorded
          case Ran(op) => w.task.journal == Some(op) && w.executed == w.recorded + [op])
  }

  ghost predicate IdsInv(w: World) {
    && (forall op :: op in w.executed ==> op.id in w.issued)
    && (w.task.journal.Some? ==>
          && w.task.journal.value.id in w.issued
          && forall op :: op in w.recorded ==> op.id != w.task.journal.value.id)
    && (forall i, j :: 0 <= i < j < |w.recorded| ==> w.recorded[i].id != w.recorded[j].id)
    && (forall op :: op in w.recorded ==> op.id in w.issued)
  }

  /** The step `number` shows this tool with these arguments. */
  ghost predicate Shown(w: World, number: nat, tool: Tool, args: Args) {
    1 <= number <= |w.steps| && w.steps[number - 1].content.tool == tool && w.steps[number - 1].content.args == args
  }

  /** Recorded operations are the steps they say they are, in step order. */
  ghost predicate RecordInv(w: World) {
    && (forall op :: op in w.recorded ==> Shown(w, op.number, op.tool, op.args))
    && (forall i, j :: 0 <= i < j < |w.recorded| ==> w.recorded[i].number < w.recorded[j].number)
    && (w.task.journal.Some? ==> w.task.journal.value.number == w.task.stepsUsed + 1)
  }

  /** Every step that claims an effect is the step of a recorded operation. */
  ghost predicate EffectInv(w: World) {
    forall i :: 0 <= i < |w.steps| && ClaimsEffect(w.steps[i].content) ==> HasOperation(w.recorded, i + 1)
  }

  ghost predicate HasOperation(ops: seq<Op>, number: nat) { exists op :: op in ops && op.number == number }

  /** An approved operation is the paused step the user saw, the id added to a send apart. */
  ghost predicate AsShown(w: World, op: Op) {
    op.origin.Some? ==> exists args :: Shown(w, op.origin.value, op.tool, args) && op.args == ExecutionArgs(op.tool, args, op.id)
  }

  ghost predicate ActionInv(w: World) {
    && (forall op :: op in w.recorded ==> AsShown(w, op))
    && (w.task.journal.Some? ==> AsShown(w, w.task.journal.value))
    && (w.task.pending.Some? ==> Shown(w, w.task.pending.value.step, w.task.pending.value.tool, w.task.pending.value.args))
  }

  /** Sound origins: approved, used once, and required for mail and calendar. */
  ghost predicate OriginSound(w: World, op: Op) {
    && (op.origin.Some? ==> op.origin.value in w.approved && op.origin.value < op.number)
    && (ExternalTool(op.tool) ==> op.origin.Some?)
  }

  ghost predicate ApprovalInv(w: World) {
    && (forall op :: op in w.recorded ==> OriginSound(w, op))
    && (w.task.journal.Some? ==>
          && OriginSound(w, w.task.journal.value)
          && forall op :: op in w.recorded && op.origin.Some? ==> op.origin != w.task.journal.value.origin)
    && (forall i, j :: 0 <= i < j < |w.recorded| && w.recorded[i].origin.Some? ==> w.recorded[i].origin != w.recorded[j].origin)
    && (w.task.pending.Some? ==>
          && Executing(w.task.contract)
          && 1 <= w.task.pending.value.step <= w.task.stepsUsed
          && (w.task.row.status == PENDING || w.task.row.status == RUNNING ==> w.task.pending.value.step in w.approved)
          && forall op :: op in w.recorded ==> op.origin != Some(w.task.pending.value.step))
    && (w.task.contract == Clarifying ==>
          w.task.pending == None && w.task.row.status != PENDING && w.task.row.status != RUNNING)
  }

  ghost predicate BoundInv(w: World) {
    && w.task.stepsUsed <= w.maxSteps + 1
    && (w.task.stepsUsed == w.maxSteps + 1 ==>
          && w.task.pending == None && w.task.journal == None && w.recorded != []
          && Last(w.recorded).number == w.task.stepsUsed && Last(w.recorded).origin.Some?)
    && (w.task.journal.Some? ==> w.task.journal.value.number <= w.maxSteps || w.task.journal.value.origin.Some?)
  }

  ghost predicate Inv(w: World) {
    RowInv(w) && LedgerInv(w) && JournalInv(w) && IdsInv(w) && RecordInv(w) && ApprovalInv(w) && BoundInv(w)
    && EffectInv(w) && ActionInv(w)
  }

  lemma RowKept(w: World, a: Act)
    requires RowInv(w) && Do(w, a).Some?
    ensures RowInv(Do(w, a).value)
  {
    if a.DoRespond? || a.DoCancel? || a.DoReconcile? {
      OutsideKeepsRows(w, a);
    } else if a.DoClaim? || a.DoRefuse? || a.DoTransition? {
      ServiceKeepsRows(w, a);
    } else {
      CommitsKeepRows(w, a);
    }
  }

  /** The claim and the refusal write the committed row, a transition the live one. */
  lemma ServiceKeepsRows(w: World, a: Act)
    requires RowInv(w) && Do(w, a).Some? && (a.DoClaim? || a.DoRefuse? || a.DoTransition?)
    ensures RowInv(Do(w, a).value)
  {
    match a {
      case DoClaim => WriteKeeps(w.task.row, ClaimPending);
      case DoRefuse => WriteKeeps(w.task.row, Apply(Fail, None));
      case DoTransition(e, stop) => WriteKeeps(w.process.row, Apply(e, stop));
    }
  }

  /** The user and the reconciliation write the committed row, and leave no process. */
  lemma OutsideKeepsRows(w: World, a: Act)
    requires RowInv(w) && Do(w, a).Some? && (a.DoRespond? || a.DoCancel? || a.DoReconcile?)
    ensures RowInv(Do(w, a).value)
  {
    match a {
      case DoRespond(_, _) => WriteKeeps(w.task.row, Apply(UserResponded, None));
      case DoCancel => WriteKeeps(w.task.row, Apply(Cancel, None));
      case DoReconcile(requeue) => WriteKeeps(w.task.row, Reconcile(requeue));
    }
  }

  /** What writes no row of its own makes the live one durable, or leaves both alone. */
  lemma CommitsKeepRows(w: World, a: Act)
    requires RowInv(w) && Do(w, a).Some?
    requires a.DoProceed? || a.DoRebuild? || a.DoCommit? || a.DoBegin? || a.DoExecute? || a.DoRecord? || a.DoCrash?
    ensures RowInv(Do(w, a).value)
  {
  }

  lemma LedgerKept(w: World, a: Act)
    requires LedgerInv(w) && Do(w, a).Some?
    ensures LedgerInv(Do(w, a).value)
  {
    if a.DoRecord? {
      RecordKeepsLedger(w, a);
    } else if a.DoRespond? {
      RespondKeepsLedger(w, a);
    } else {
      OthersKeepSteps(w, a);
    }
  }

  /** Only recording and answering touch the table; a live head moves only when it is rebuilt. */
  lemma OthersKeepSteps(w: World, a: Act)
    requires !a.DoRecord? && !a.DoRespond? && Do(w, a).Some?
    ensures var w' := Do(w, a).value;
            && w'.id == w.id && w'.steps == w.steps && w'.recorded == w.recorded && w'.approved == w.approved
            && w'.task.stepsUsed == w.task.stepsUsed
            && (w'.process.Live? && w'.process.head.Some? ==>
                  || w'.process.head.value == Head(w.id, w.steps)
                  || (w.process.Live? && w.process.head == w'.process.head))
  {
  }

  /** An answer rewrites at most the observation and the hash of the last step. */
  lemma RespondEffect(w: World, a: Act)
    requires a.DoRespond? && Do(w, a).Some?
    ensures var w' := Do(w, a).value;
            && w'.id == w.id && w'.process == Idle && w'.recorded == w.recorded && w.approved <= w'.approved
            && w'.task.stepsUsed == w.task.stepsUsed && w'.task.journal == w.task.journal
            && (w'.steps == w.steps || (w.steps != [] && w'.steps == ResealLast(w.steps, a.observation)))
  {
  }

  lemma RespondKeepsLedger(w: World, a: Act)
    requires LedgerInv(w) && a.DoRespond? && Do(w, a).Some?
    ensures LedgerInv(Do(w, a).value)
  {
    var w' := Do(w, a).value;
    RespondEffect(w, a);
    if w'.steps != w.steps {
      ResealKeepsLedger(w, w', a.observation);
    }
  }

  lemma ResealKeepsLedger(w: World, v: World, observation: string)
    requires LedgerInv(w) && w.steps != [] && v.steps == ResealLast(w.steps, observation)
    requires v.process == Idle && v.id == w.id && v.task.stepsUsed == w.task.stepsUsed
    ensures LedgerInv(v)
  {
    ResealVerified(w.id, w.steps, observation);
    ResealKeepsCalls(w.steps, observation);
  }

  lemma RecordKeepsLedger(w: World, a: Act)
    requires LedgerInv(w) && a.DoRecord? && Do(w, a).Some?
    ensures LedgerInv(Do(w, a).value)
  {
  }

  lemma JournalKept(w: World, a: Act)
    requires RowInv(w) && JournalInv(w) && Do(w, a).Some?
    ensures JournalInv(Do(w, a).value)
  {
    if a.DoCommit? || a.DoBegin? || a.DoRecord? {
      CommitsKeepJournal(w, a);
    } else if a.DoRespond? || a.DoCancel? || a.DoReconcile? {
      OutsideKeepsJournal(w, a);
    } else {
      OthersKeepJournal(w, a);
    }
  }

  lemma OutsideKeepsJournal(w: World, a: Act)
    requires RowInv(w) && JournalInv(w) && Do(w, a).Some? && (a.DoRespond? || a.DoCancel? || a.DoReconcile?)
    ensures JournalInv(Do(w, a).value)
  {
  }

  lemma OthersKeepJournal(w: World, a: Act)
    requires RowInv(w) && JournalInv(w) && Do(w, a).Some?
    requires a.DoClaim? || a.DoRefuse? || a.DoProceed? || a.DoRebuild? || a.DoTransition? || a.DoExecute? || a.DoCrash?
    ensures JournalInv(Do(w, a).value)
  {
  }

  lemma CommitsKeepJournal(w: World, a: Act)
    requires RowInv(w) && JournalInv(w) && Do(w, a).Some? && (a.DoCommit? || a.DoBegin? || a.DoRecord?)
    ensures JournalInv(Do(w, a).value)
  {
  }

  lemma IdsKept(w: World, a: Act)
    requires JournalInv(w) && IdsInv(w) && Do(w, a).Some?
    ensures IdsInv(Do(w, a).value)
  {
  }

  lemma RecordKept(w: World, a: Act)
    requires LedgerInv(w) && JournalInv(w) && RecordInv(w) && Do(w, a).Some?
    ensures RecordInv(Do(w, a).value)
  {
    var w' := Do(w, a).value;
    RecordedGrow(w, a);
    JournalNumber(w, a);
    forall op | op in w'.recorded ensures Shown(w', op.number, op.tool, op.args) {
      if op in w.recorded {
        ShownKept(w, a, op.number, op.tool, op.args);
      } else {
        NewRecordIsShown(w, a);
      }
    }
    forall i, j | 0 <= i < j < |w'.recorded| ensures w'.recorded[i].number < w'.recorded[j].number {
      assert w.recorded[i] in w.recorded;
    }
  }

  /** What is newly recorded is the journaled operation, and its step is the last one. */
  lemma NewRecordIsShown(w: World, a: Act)
    requires LedgerInv(w) && JournalInv(w) && RecordInv(w) && Do(w, a).Some? && Do(w, a).value.recorded != w.recorded
    ensures w.task.journal.Some? && Do(w, a).value.recorded == w.recorded + [w.task.journal.value]
    ensures var op := w.task.journal.value; Shown(Do(w, a).value, op.number, op.tool, op.args)
  {
    RecordedGrow(w, a);
    if a.DoRecord? {
      assert Last(Do(w, a).value.steps).content == a.content;
    } else if !a.DoRespond? {
      OthersKeepSteps(w, a);
    }
  }

  lemma ResealKeepsCalls(steps: seq<Step>, observation: string)
    requires steps != []
    ensures |ResealLast(steps, observation)| == |steps|
    ensures forall i :: 0 <= i < |steps| ==>
      ResealLast(steps, observation)[i].content == steps[i].content.(observation := ResealLast(steps, observation)[i].content.observation)
  {
  }

  lemma JournalNumber(w: World, a: Act)
    requires JournalInv(w) && RecordInv(w) && Do(w, a).Some?
    ensures var w' := Do(w, a).value; w'.task.journal.Some? ==> w'.task.journal.value.number == w'.task.stepsUsed + 1
  {
  }

  lemma ApprovalKept(w: World, a: Act)
    requires RowInv(w) && LedgerInv(w) && JournalInv(w) && RecordInv(w) && ApprovalInv(w) && Do(w, a).Some?
    ensures ApprovalInv(Do(w, a).value)
  {
    if a.DoRecord? {
      RecordKeepsApprovals(w, a);
    } else if a.DoRespond? {
      RespondKeepsApprovals(w, a);
    } else if a.DoCommit? {
      CommitKeepsApprovals(w, a);
    } else if a.DoBegin? {
      BeginKeepsApprovals(w, a);
    } else {
      OthersKeepSteps(w, a);
      OthersKeepApprovals(w, a);
    }
  }

  lemma OthersKeepApprovals(w: World, a: Act)
    requires RowInv(w) && ApprovalInv(w) && Do(w, a).Some?
    requires !a.DoRecord? && !a.DoRespond? && !a.DoCommit? && !a.DoBegin?
    ensures ApprovalInv(Do(w, a).value)
  {
  }

  lemma RespondKeepsApprovals(w: World, a: Act)
    requires JournalInv(w) && ApprovalInv(w) && a.DoRespond? && Do(w, a).Some?
    ensures ApprovalInv(Do(w, a).value)
  {
  }

  lemma CommitKeepsApprovals(w: World, a: Act)
    requires RowInv(w) && LedgerInv(w) && JournalInv(w) && RecordInv(w) && ApprovalInv(w)
    requires a.DoCommit? && Do(w, a).Some?
    ensures ApprovalInv(Do(w, a).value)
  {
  }

  lemma BeginKeepsApprovals(w: World, a: Act)
    requires RowInv(w) && JournalInv(w) && ApprovalInv(w) && a.DoBegin? && Do(w, a).Some?
    ensures ApprovalInv(Do(w, a).value)
  {
  }

  lemma RecordKeepsApprovals(w: World, a: Act)
    requires RowInv(w) && LedgerInv(w) && JournalInv(w) && RecordInv(w) && ApprovalInv(w)
    requires a.DoRecord? && Do(w, a).Some?
    ensures ApprovalInv(Do(w, a).value)
  {
    var w' := Do(w, a).value;
    assert w'.approved == w.approved && w'.task.journal == None;
    assert w'.recorded == w.recorded || w'.recorded == w.recorded + [w.task.journal.value];
  }

  lemma BoundKept(w: World, a: Act)
    requires JournalInv(w) && ApprovalInv(w) && RecordInv(w) && BoundInv(w) && Do(w, a).Some?
    ensures BoundInv(Do(w, a).value)
  {
  }

  /** Steps are only appended, and an answer changes nothing of a step but its observation. */
  lemma StepsKeepCalls(w: World, a: Act)
    requires LedgerInv(w) && Do(w, a).Some?
    ensures var w' := Do(w, a).value;
            && |w.steps| <= |w'.steps|
            && forall i :: 0 <= i < |w.steps| ==>
                 w'.steps[i].content == w.steps[i].content.(observation := w'.steps[i].content.observation)
  {
    if a.DoRespond? {
      RespondEffect(w, a);
      if w.steps != [] {
        ResealKeepsCalls(w.steps, a.observation);
      }
    } else if !a.DoRecord? {
      OthersKeepSteps(w, a);
    }
  }

  lemma RecordedGrow(w: World, a: Act)
    requires JournalInv(w) && Do(w, a).Some?
    ensures var w' := Do(w, a).value;
            w'.recorded == w.recorded || (w.task.journal.Some? && w'.recorded == w.recorded + [w.task.journal.value])
  {
  }

  lemma EffectKept(w: World, a: Act)
    requires LedgerInv(w) && JournalInv(w) && RecordInv(w) && EffectInv(w) && Do(w, a).Some?
    ensures EffectInv(Do(w, a).value)
  {
    var w' := Do(w, a).value;
    StepsKeepCalls(w, a);
    RecordedGrow(w, a);
    forall i | 0 <= i < |w'.steps| && ClaimsEffect(w'.steps[i].content) ensures HasOperation(w'.recorded, i + 1) {
      if i < |w.steps| {
        assert ClaimsEffect(w.steps[i].content);
        StillHasOperation(w.recorded, w'.recorded, i + 1);
      } else {
        NewEffectIsRecorded(w, a);
      }
    }
  }

  lemma StillHasOperation(ops: seq<Op>, more: seq<Op>, number: nat)
    requires HasOperation(ops, number) && ops <= more
    ensures HasOperation(more, number)
  {
    var op :| op in ops && op.number == number;
    assert op in more;
  }

  /** A new step that claims an effect can only be the step of the operation that just ran. */
  lemma NewEffectIsRecorded(w: World, a: Act)
    requires LedgerInv(w) && JournalInv(w) && RecordInv(w) && Do(w, a).Some?
    ensures var w' := Do(w, a).value;
            |w'.steps| > |w.steps| ==>
              && |w'.steps| == |w.steps| + 1
              && (ClaimsEffect(Last(w'.steps).content) ==> HasOperation(w'.recorded, |w'.steps|))
  {
    if a.DoRecord? {
      if w.process.phase.Ran? {
        var op := w.process.phase.op;
        assert op in Do(w, a).value.recorded && op.number == |w.steps| + 1;
      }
    } else if a.DoRespond? {
      RespondEffect(w, a);
    } else {
      OthersKeepSteps(w, a);
    }
  }

  lemma ShownKept(w: World, a: Act, number: nat, tool: Tool, args: Args)
    requires LedgerInv(w) && Do(w, a).Some? && Shown(w, number, tool, args)
    ensures Shown(Do(w, a).value, number, tool, args)
  {
    StepsKeepCalls(w, a);
  }

  lemma AsShownKept(w: World, a: Act, op: Op)
    requires LedgerInv(w) && Do(w, a).Some? && AsShown(w, op)
    ensures AsShown(Do(w, a).value, op)
  {
    if op.origin.Some? {
      var args :| Shown(w, op.origin.value, op.tool, args) && op.args == ExecutionArgs(op.tool, args, op.id);
      ShownKept(w, a, op.origin.value, op.tool, args);
    }
  }

  lemma ActionKept(w: World, a: Act)
    requires LedgerInv(w) && JournalInv(w) && ActionInv(w) && Do(w, a).Some?
    ensures ActionInv(Do(w, a).value)
  {
    var w' := Do(w, a).value;
    RecordedGrow(w, a);
    forall op | op in w'.recorded ensures AsShown(w', op) {
      AsShownKept(w, a, op);
    }
    NewJournalIsShown(w, a);
    if w'.task.journal.Some? && w'.task.journal == w.task.journal {
      AsShownKept(w, a, w.task.journal.value);
    }
    if w'.task.pending.Some? && w'.task.pending == w.task.pending {
      ShownKept(w, a, w.task.pending.value.step, w.task.pending.value.tool, w.task.pending.value.args);
    }
  }

  /** What a step newly journals is the pending action, and what it newly pauses on is the last step. */
  lemma NewJournalIsShown(w: World, a: Act)
    requires LedgerInv(w) && JournalInv(w) && ActionInv(w) && Do(w, a).Some?
    ensures var w' := Do(w, a).value;
            && (w'.task.journal.Some? && w'.task.journal != w.task.journal ==> AsShown(w', w'.task.journal.value))
            && (w'.task.pending.Some? && w'.task.pending != w.task.pending ==>
                  Shown(w', w'.task.pending.value.step, w'.task.pending.value.tool, w'.task.pending.value.args))
  {
    if a.DoBegin? && w.task.pending.Some? {
      var p := w.task.pending.value;
      assert Shown(Do(w, a).value, p.step, p.tool, p.args);
    }
  }

  // ---- Safety of every run ------------------------------------------------------

  lemma StepKeepsInv(w: World, a: Act)
    requires Inv(w) && Do(w, a).Some?
    ensures Inv(Do(w, a).value)
  {
    RowKept(w, a);
    LedgerKept(w, a);
    JournalKept(w, a);
    IdsKept(w, a);
    RecordKept(w, a);
    ApprovalKept(w, a);
    BoundKept(w, a);
    EffectKept(w, a);
    ActionKept(w, a);
  }

  lemma {:induction false} RunKeepsInv(w: World, acts: seq<Act>)
    requires Inv(w) && Exec(w, acts).Some?
    ensures Inv(Exec(w, acts).value)
  {
    if acts != [] {
      RunKeepsInv(w, Front(acts));
      StepKeepsInv(Exec(w, Front(acts)).value, Last(acts));
    }
  }

  /** A crash may come after any act: the run so far is itself a run, and nothing durable is lost with the process. */
  lemma {:induction false} CrashAnywhere(w: World, acts: seq<Act>, k: nat)
    requires Inv(w) && Exec(w, acts).Some? && k <= |acts|
    ensures Exec(w, acts[..k]).Some? && Inv(Exec(w, acts[..k]).value)
    ensures var before := Exec(w, acts[..k]).value;
            before.process.Live? ==>
              && Exec(w, acts[..k] + [DoCrash]) == Some(before.(process := Idle))
              && Inv(before.(process := Idle))
    decreases |acts|
  {
    if k < |acts| {
      assert Front(acts)[..k] == acts[..k];
      CrashAnywhere(w, Front(acts), k);
    } else {
      assert acts[..k] == acts;
      RunKeepsInv(w, acts);
      if Exec(w, acts).value.process.Live? { CrashAtEnd(w, acts); }
    }
  }

  lemma CrashAtEnd(w: World, acts: seq<Act>)
    requires Exec(w, acts).Some? && Inv(Exec(w, acts).value) && Exec(w, acts).value.process.Live?
    ensures var before := Exec(w, acts).value;
            Exec(w, acts + [DoCrash]) == Some(before.(process := Idle)) && Inv(before.(process := Idle))
  {
    var crashed := acts + [DoCrash];
    assert Front(crashed) == acts && Last(crashed) == DoCrash;
    StepKeepsInv(Exec(w, acts).value, DoCrash);
  }

  /** What a claim may rely on. */
  lemma ClaimFacts(w: World)
    requires Inv(w)
    ensures ClaimRow(w.task.row).Some? <==> w.task.row.state == Queued
    ensures w.task.row.state == Queued ==> w.task.contract != Clarifying
    ensures w.task.pending.Some? ==> Executing(w.task.contract)
  {
  }

  /** A state some run of a published task reaches, crashes and requeues included. */
  ghost predicate Reachable(w: World) {
    exists acts, contract, attempt :: (contract == NotRequired || contract == Uncompiled)
      && Exec(Publish(w.id, w.maxSteps, contract, attempt), acts) == Some(w)
  }

  lemma ReachableInv(w: World)
    requires Reachable(w)
    ensures Inv(w)
  {
    var acts, contract, attempt :| (contract == NotRequired || contract == Uncompiled)
      && Exec(Publish(w.id, w.maxSteps, contract, attempt), acts) == Some(w);
    RunKeepsInv(Publish(w.id, w.maxSteps, contract, attempt), acts);
  }

  lemma {:induction false} ExecConcat(w: World, a: seq<Act>, b: seq<Act>)
    requires Exec(w, a).Some?
    ensures Exec(w, a + b) == Exec(Exec(w, a).value, b)
    decreases |b|
  {
    if b == [] {
      assert a + b == a;
    } else {
      assert Front(a + b) == a + Front(b) && Last(a + b) == Last(b);
      ExecConcat(w, a, Front(b));
    }
  }

  /** Whatever runs on from a reachable state, as every service run does, reaches a reachable state. */
  lemma ReachableOnward(w: World, acts: seq<Act>)
    requires Reachable(w) && Exec(w, acts).Some?
    ensures Reachable(Exec(w, acts).value)
  {
    var before, contract, attempt :| (contract == NotRequired || contract == Uncompiled)
      && Exec(Publish(w.id, w.maxSteps, contract, attempt), before) == Some(w);
    ExecConcat(Publish(w.id, w.maxSteps, contract, attempt), before, acts);
    SameTask(w, acts);
  }

  lemma {:induction false} SameTask(w: World, acts: seq<Act>)
    requires Exec(w, acts).Some?
    ensures Exec(w, acts).value.id == w.id && Exec(w, acts).value.maxSteps == w.maxSteps
  {
    if acts != [] {
      SameTask(w, Front(acts));
    }
  }

  /** No operation id reaches the executor twice, and no approval is spent twice. */
  lemma AtMostOnce(w: World)
    requires Reachable(w)
    ensures forall i, j :: 0 <= i < j < |w.executed| ==> w.executed[i].id != w.executed[j].id
    ensures forall i, j :: 0 <= i < j < |w.executed| && w.executed[i].origin.Some? ==>
              w.executed[i].origin != w.executed[j].origin
  {
    ReachableInv(w);
  }

  /**
   Mail is sent and events are created only by operations the user approved; and every
   approved operation has the tool and the arguments of the paused step it was approved
   from, with its own id added to a send.
   */
  lemma OnlyApprovedSends(w: World, op: Op)
    requires Reachable(w) && op in w.executed
    ensures ExternalTool(op.tool) ==> op.origin.Some?
    ensures op.origin.Some? ==>
              && op.origin.value in w.approved && 1 <= op.origin.value <= |w.steps|
              && var shown := w.steps[op.origin.value - 1].content;
                 shown.tool == op.tool && op.args == ExecutionArgs(op.tool, shown.args, op.id)
  {
    ReachableInv(w);
    assert op in w.recorded || w.task.journal == Some(op);
    assert AsShown(w, op);
  }

  /**
   With an empty journal the side effects are exactly the recorded operations, each the
   step of its number; with an operation in flight at most that one is unrecorded.
   */
  lemma ExecutedAreRecorded(w: World)
    requires Reachable(w)
    ensures w.task.journal == None ==> w.executed == w.recorded
    ensures w.task.journal.Some? ==>
              w.executed == w.recorded || w.executed == w.recorded + [w.task.journal.value]
    ensures forall k :: 0 <= k < |w.recorded| ==>
              && 1 <= w.recorded[k].number <= |w.steps|
              && w.steps[w.recorded[k].number - 1].content.tool == w.recorded[k].tool
              && w.steps[w.recorded[k].number - 1].content.args == w.recorded[k].args
    ensures forall i, j :: 0 <= i < j < |w.recorded| ==> w.recorded[i].number < w.recorded[j].number
  {
    ReachableInv(w);
    RecordedAreSteps(w);
  }

  lemma RecordedAreSteps(w: World)
    requires RecordInv(w)
    ensures forall k :: 0 <= k < |w.recorded| ==>
              && 1 <= w.recorded[k].number <= |w.steps|
              && w.steps[w.recorded[k].number - 1].content.tool == w.recorded[k].tool
              && w.steps[w.recorded[k].number - 1].content.args == w.recorded[k].args
  {
    forall k | 0 <= k < |w.recorded| ensures Shown(w, w.recorded[k].number, w.recorded[k].tool, w.recorded[k].args) {
      assert w.recorded[k] in w.recorded;
    }
  }

  /**
   The other way round: whatever the journal holds, a step that claims an effect is the
   step of exactly one executed operation, with its tool and its arguments.
   */
  lemma EffectsWereExecuted(w: World, i: nat)
    requires Reachable(w) && i < |w.steps| && ClaimsEffect(w.steps[i].content)
    ensures exists k :: IsStepOf(w, k, i)
    ensures forall k, m :: IsStepOf(w, k, i) && IsStepOf(w, m, i) ==> k == m
  {
    ReachableInv(w);
    ClaimedEffectHappened(w, i);
    NumbersAreUnique(w);
  }

  lemma ClaimedEffectHappened(w: World, i: nat)
    requires JournalInv(w) && RecordInv(w) && EffectInv(w) && i < |w.steps| && ClaimsEffect(w.steps[i].content)
    ensures exists k :: IsStepOf(w, k, i)
  {
    assert HasOperation(w.recorded, i + 1);
    var op :| op in w.recorded && op.number == i + 1;
    var k :| 0 <= k < |w.recorded| && w.recorded[k] == op;
    assert w.executed[k] == op;
    assert IsStepOf(w, k, i);
  }

  /** The executed operation `k` has the number, the tool and the arguments of the step at `i`. */
  ghost predicate IsStepOf(w: World, k: int, i: nat)
    requires i < |w.steps|
  {
    && 0 <= k < |w.executed| && w.executed[k].number == i + 1
    && w.executed[k].tool == w.steps[i].content.tool && w.executed[k].args == w.steps[i].content.args
  }

  lemma NumbersAreUnique(w: World)
    requires LedgerInv(w) && JournalInv(w) && RecordInv(w)
    ensures forall k, m :: 0 <= k < m < |w.executed| ==> w.executed[k].number < w.executed[m].number
  {
    forall k, m | 0 <= k < m < |w.executed| ensures w.executed[k].number < w.executed[m].number {
      if m == |w.recorded| {
        assert w.recorded[k] in w.recorded;
      }
    }
  }

  /** The table is numbered 1..stepsUsed, always verifies, and a live head is its last hash. */
  lemma TableAlwaysVerifies(w: World)
    requires Reachable(w)
    ensures Verified(w.id, w.steps) && |w.steps| == w.task.stepsUsed
    ensures forall i :: 0 <= i < |w.steps| ==> w.steps[i].content.number == i + 1
    ensures w.process.Live? && w.process.head.Some? ==> w.process.head.value == Head(w.id, w.steps)
  {
    ReachableInv(w);
  }

  /** One step past the limit is possible, and only for an approved operation. */
  lemma StepsBounded(w: World)
    requires Reachable(w)
    ensures w.task.stepsUsed <= w.maxSteps + 1
    ensures w.task.stepsUsed == w.maxSteps + 1 ==>
              w.executed != [] && Last(w.executed).number == w.task.stepsUsed && Last(w.executed).origin.Some?
  {
    ReachableInv(w);
  }

  function Count(acts: seq<Act>, select: Act -> bool): nat {
    if acts == [] then 0 else Count(Front(acts), select) + if select(Last(acts)) then 1 else 0
  }

  /** Claims that take effect: at most one per publication, requeue or answer. */
  lemma {:induction false} ClaimsInRun(w: World, acts: seq<Act>)
    requires w.task.row == Published(w.task.row.attempt) && Inv(w) && Exec(w, acts).Some?
    ensures Count(acts, a => a == DoClaim) + (if Exec(w, acts).value.task.row.state == Queued then 1 else 0)
         <= 1 + Count(acts, a => a == DoReconcile(true)) + Count(acts, (a: Act) => a.DoRespond?)
  {
    if acts != [] {
      var before := Exec(w, Front(acts)).value;
      ClaimsInRun(w, Front(acts));
      RunKeepsInv(w, Front(acts));
      RunKeepsInv(w, acts);
      QueuedOnlyByRequeueOrAnswer(before, Last(acts));
    }
  }

  lemma QueuedOnlyByRequeueOrAnswer(w: World, a: Act)
    requires RowInv(w) && Do(w, a).Some?
    ensures Do(w, a).value.task.row.state == Queued ==>
              w.task.row.state == Queued || a == DoReconcile(true) || a.DoRespond?
    ensures a == DoClaim ==> w.task.row.state == Queued && Do(w, a).value.task.row.state != Queued
  {
  }

  // ---- An operation left in flight -------------------------------------------------

  /** An operation is journaled and the process that began it is gone. */
  ghost predicate LeftInFlight(w: World) {
    w.task.journal.Some? && (w.process.Live? ==> w.process.phase == Claimed)
  }

  lemma CrashLeavesInFlight(w: World)
    requires w.process.Live? && w.task.journal.Some?
    ensures LeftInFlight(Do(w, DoCrash).value)
  {
  }

  lemma InFlightStep(w: World, a: Act)
    requires Inv(w) && LeftInFlight(w) && Do(w, a).Some?
    ensures LeftInFlight(Do(w, a).value)
    ensures Do(w, a).value.executed == w.executed && Do(w, a).value.steps == w.steps
    ensures Do(w, a).value.task.journal == w.task.journal
  {
  }

  /** From then on nothing is executed or recorded, whatever is claimed, requeued or answered. */
  lemma {:induction false} InFlightNeverResumes(w: World, acts: seq<Act>)
    requires Inv(w) && LeftInFlight(w) && Exec(w, acts).Some?
    ensures var w' := Exec(w, acts).value;
            LeftInFlight(w') && w'.executed == w.executed && w'.steps == w.steps && w'.task.journal == w.task.journal
  {
    if acts != [] {
      InFlightNeverResumes(w, Front(acts));
      RunKeepsInv(w, Front(acts));
      InFlightStep(Exec(w, Front(acts)).value, Last(acts));
    }
  }

  /** And the next claim of such a task can only be refused, crash, or be cancelled. */
  lemma InFlightClaimRefused(w: World, a: Act)
    requires Inv(w) && LeftInFlight(w) && w.process.Live?
    ensures Do(w, a).Some? <==> a == DoRefuse || a == DoCrash || a == DoCancel
    ensures a == DoRefuse ==> Do(w, a).value.task.row.state == Failed
  {
    if a == DoRefuse || a == DoCancel {
      RunningMayEnd(w.task.row);
    }
  }

  /** The policy lets a running row fail and be cancelled. */
  lemma RunningMayEnd(row: Row)
    requires Consistent(row) && row.status == RUNNING
    ensures ApplyEvent(row, Fail, None).Ok? && ApplyEvent(row, Fail, None).value.state == Failed
    ensures ApplyEvent(row, Cancel, None).Ok?
  {
  }

  // ---- A row left running -------------------------------------------------------------

  /** The process is gone and the committed row still says running. */
  ghost predicate LeftRunning(w: World) { w.process == Idle && w.task.row.status == RUNNING }

  /** Nothing but the reconciliation or a cancellation moves such a row: it can be neither claimed nor answered. */
  lemma LeftRunningWaits(w: World, a: Act)
    requires Inv(w) && LeftRunning(w)
    ensures Do(w, a).Some? <==> a.DoReconcile? || a == DoCancel
    ensures Do(w, a).Some? ==> Do(w, a).value.executed == w.executed && Do(w, a).value.steps == w.steps
  {
  }

  // ---- Agreement with the writers of LoopPolicy ---------------------------------------

  /** The row is one that some history of the state writers produces. */
  ghost predicate Written(row: Row) {
    exists ws, first :: (forall x :: x in ws ==> Issued(x)) && History(Published(first), ws) == row
  }

  lemma WrittenOnward(row: Row, x: Writer)
    requires Written(row) && Issued(x) && Write(row, x).Some?
    ensures Written(Write(row, x).value)
  {
    var ws, first: nat :| (forall y :: y in ws ==> Issued(y)) && History(Published(first), ws) == row;
    assert Front(ws + [x]) == ws && Last(ws + [x]) == x;
    assert History(Published(first), ws + [x]) == Write(row, x).value;
  }

  ghost predicate RowsWritten(w: World) {
    Written(w.task.row) && (w.process.Live? ==> Written(w.process.row))
  }

  lemma StepWritesRows(w: World, a: Act)
    requires RowsWritten(w) && Do(w, a).Some?
    ensures RowsWritten(Do(w, a).value)
  {
    match a {
      case DoClaim => WrittenOnward(w.task.row, ClaimPending);
      case DoRefuse => WrittenOnward(w.task.row, Apply(Fail, None));
      case DoTransition(e, stop) => WrittenOnward(w.process.row, Apply(e, stop));
      case DoRespond(_, _) => WrittenOnward(w.task.row, Apply(UserResponded, None));
      case DoCancel => WrittenOnward(w.task.row, Apply(Cancel, None));
      case DoReconcile(requeue) => WrittenOnward(w.task.row, Reconcile(requeue));
      case _ =>
    }
  }

  /** Every row of a run, committed or in memory, is one the writers' histories produce. */
  lemma {:induction false} RunWritesRows(w: World, acts: seq<Act>)
    requires w.task.row == Published(w.task.row.attempt) && w.process == Idle && Exec(w, acts).Some?
    ensures RowsWritten(Exec(w, acts).value)
  {
    if acts == [] {
      assert History(Published(w.task.row.attempt), []) == w.task.row;
    } else {
      RunWritesRows(w, Front(acts));
      StepWritesRows(Exec(w, Front(acts)).value, Last(acts));
    }
  }
}
