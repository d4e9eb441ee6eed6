/**
 The run loop of the agent, over an in-memory task object, the committed row, the step
 table and the service's own memory of the run.

 Everything outside (model replies, tools, the verifier, the workspace, the user) is an
 input: `Turn` holds one iteration's worth, and the theorems are for all of them. Each
 commit, transition and side effect appends its act to `acts`; `Valid` says the acts are
 a run of RunProtocol. A crash is the loss of everything but `stored` and `stepTable`,
 at any prefix of `acts`.
 */
module AgentRun {
  import opened Basics
  import opened LoopPolicy
  import opened Ledger
  import opened RunProtocol

  datatype Reply =
    | ReplyFailed(budgetExhausted: bool, spent: nat)
    | Replied(thought: string, tool: Option<Tool>, args: Args, path: string, tokens: nat)

  datatype ToolOutcome = ToolRaised | ToolReturned(observation: string, status: ToolStatus)

  /** The checks may raise, the verifier fail, or judge; after an accepted verdict the receipt may not be built. */
  datatype Verdict =
    | ChecksRaised
    | VerifierFailed(observation: string, budgetExhausted: bool, spent: nat)
    | Judged(accepted: bool, observation: string, tokens: nat, receiptBuilt: bool)

  /** How a delegation ends: refused before the child exists, run to its end, or raising before or after that. */
  datatype Delegation =
    | DelegationRefused(observation: string, blocked: bool)
    | ChildRan(observation: string, ok: bool, tokens: nat)
    | DelegationRaised(started: bool)

  /** Where in an iteration the workspace, the parser or the evidence check raises, if anywhere. */
  datatype RaisePoint = Nowhere | WhilePlanning | BeforeRouting | AfterTheStep | AfterRejection

  datatype Turn = Turn(
    cancelled: bool,
    planningLeft: bool,
    reply: Reply,
    markerBefore: nat,
    markerAfter: nat,
    permitted: bool,
    guardBlock: Option<string>,
    approvalReason: Option<string>,
    outcome: ToolOutcome,
    delegation: Delegation,
    evidenceReady: bool,
    verdict: Verdict,
    noProgress: nat,
    raises: RaisePoint)

  /** How a stage of the preparation ends: it passes, settles the run, or raises. */
  datatype Stage = Passed | Settles | Raises

  /**
   What preparing a claimed run meets. The workspace may not open, any stage may raise, and
   so may resuming. `question` is set when the contract could not be locked.
   */
  datatype Setup = Setup(
    opens: bool, authority: Stage, hashValid: bool, contractRaises: bool, userCriteria: bool, question: Option<string>,
    compileTokens: nat, resources: Stage, resumes: bool, rubricRaises: bool, rubricTokens: nat, cancelledAtEnd: bool)

  function ContractStage(s: Setup, contract: ContractState): Stage {
    match contract
    case NotRequired => Passed
    case Locked => if s.hashValid then Passed else Settles
    case Uncompiled => if s.contractRaises then Raises else if s.userCriteria || s.question == None then Passed else Settles
    case Clarifying => Settles
  }

  /** The first stage that does not pass decides. */
  function Preparation(s: Setup, contract: ContractState): Stage {
    if s.authority != Passed then s.authority
    else if ContractStage(s, contract) != Passed then ContractStage(s, contract)
    else if s.resources != Passed then s.resources
    else if s.resumes then Passed
    else Raises
  }

  /** The preparation of a task raises before anything settles it; no handler is left then. */
  predicate Strands(s: Setup, t: Task) {
    !s.opens || (t.journal == None && Preparation(s, t.contract) == Raises)
  }

  datatype Limits = Limits(stuckThreshold: nat, finishRetries: nat)

  datatype Route = InvalidAction | BlockedAction(reason: string) | NeedsApproval(reason: string) | Execute

  function RouteAction(tool: Option<Tool>, guardBlock: Option<string>, writes: nat, approval: Option<string>): Route {
    if tool == None then InvalidAction
    else if guardBlock.Some? then BlockedAction(guardBlock.value)
    else if (tool.value == WriteFile || tool.value == EditFile) && writes >= 3 then BlockedAction("repeated write")
    else if approval.Some? then NeedsApproval(approval.value)
    else Execute
  }

  /** Approval is asked for shell commands only. */
  function Routed(turn: Turn, writes: nat): (r: Route)
    requires turn.reply.Replied?
    ensures r == Execute ==> turn.reply.tool.Some?
    ensures r.NeedsApproval? ==> turn.reply.tool == Some(RunCommand)
  {
    RouteAction(turn.reply.tool, turn.guardBlock, writes, if turn.reply.tool == Some(RunCommand) then turn.approvalReason else None)
  }

  /** Continue: the next iteration; Ended: the run is over; Raised: an exception is on its way out. */
  datatype Outcome = Continue | Ended | Raised

  datatype HistoryEntry = HistoryEntry(number: int, thought: string, tool: Tool, args: Args, observation: string, status: ToolStatus)

  /** The step a finish attempt is recorded as: the tokens of planning and verifying together. */
  function FinishContent(number: nat, args: Args, planTokens: nat, verdict: Verdict): Content
    requires !verdict.ChecksRaised?
  {
    match verdict
    case VerifierFailed(observation, _, spent) => Content(number, Finish, args, observation, ERROR, planTokens + spent)
    case Judged(_, observation, tokens, _) => Content(number, Finish, args, observation, OK, planTokens + tokens)
  }

  function Entry(s: Step): HistoryEntry {
    HistoryEntry(s.content.number, s.thought, s.content.tool, s.content.args, s.content.observation, s.content.status)
  }

  function Entries(steps: seq<Step>): seq<HistoryEntry> { seq(|steps|, i requires 0 <= i < |steps| => Entry(steps[i])) }

  /** The world once a live process has applied one more event in memory. */
  function Moved(w: World, event: LoopEvent, stop: Option<StopReason>): World
    requires w.process.Live? && ApplyEvent(w.process.row, event, stop).Ok?
  {
    w.(process := w.process.(row := ApplyEvent(w.process.row, event, stop).value))
  }

  /** A contract that needs a clarification hands the task to the user in the same commit. */
  lemma QuestionMayBeCommitted(w: World)
    requires w.process.Live? && w.process.phase == Ready && w.process.row.state == Understanding && w.process.row.status == RUNNING
    requires w.task.contract == Uncompiled && w.task.pending == None
    ensures ApplyEvent(w.process.row, InputRequired, None).Ok?
    ensures var v := Moved(w, InputRequired, None);
            CanCommit(v, Clarifying, None) && v.process.row.state == AwaitingInput && v.process.row.status == AWAITING_INPUT
  {
  }

  function PauseEvent(action: Option<Pending>): LoopEvent { if action.Some? then ApprovalRequired else InputRequired }

  /** So does a question of the agent, or an action just shown in the last step. */
  lemma PauseMayBeCommitted(w: World, action: Option<Pending>)
    requires w.process.Live? && w.process.phase == Ready && w.process.row.state == Acting && w.process.row.status == RUNNING
    requires w.task.pending == None && Executing(w.task.contract)
    requires action.Some? ==>
               && w.steps != [] && action.value.step == w.task.stepsUsed <= w.maxSteps
               && Last(w.steps).content.tool == action.value.tool && Last(w.steps).content.args == action.value.args
    ensures ApplyEvent(w.process.row, PauseEvent(action), None).Ok?
    ensures var v := Moved(w, PauseEvent(action), None);
            && CanCommit(v, w.task.contract, action) && v.process.row.status == AWAITING_INPUT
            && v.process.row.state == if action.Some? then AwaitingApproval else AwaitingInput
  {
  }

  lemma EntriesGrow(steps: seq<Step>, s: Step)
    ensures Entries(steps + [s]) == Entries(steps) + [Entry(s)]
  {
  }

  /** The loop's own variables: finish markers, write counters, and the number auto-finish used up. */
  datatype LoopMemory = LoopMemory(
    lastRejected: Option<nat>, retries: nat, sameWrites: nat, lastPath: Option<string>, skipped: Option<nat>)
  {
    /** Repeated writes to one path are counted; any other dispatched tool resets the count. */
    function Wrote(tool: Option<Tool>, path: string): LoopMemory {
      if tool == Some(WriteFile) || tool == Some(EditFile) then
        this.(sameWrites := if lastPath == Some(path) then sameWrites + 1 else 1, lastPath := Some(path))
      else if tool.Some? && tool != Some(Remember) && tool != Some(Spawn) then
        this.(sameWrites := 0, lastPath := None)
      else this
    }
  }

  class AgentService {
    const taskId: nat
    const maxSteps: nat
    const tokenBudget: nat
    const limits: Limits

    // The in-memory task object.
    const columns: TransitionTarget
    var operationJournal: Option<Op>
    var pendingAction: Option<Pending>
    var pendingQuestion: Option<string>
    var contractStatus: ContractState
    var stepsUsed: nat
    var tokensUsed: nat
    var hasRubric: bool

    // The database: the committed row and the step table.
    var stored: Task
    var stepTable: seq<Step>

    // The service's memory of the run, and the source of operation ids.
    var lastHash: Digest
    var history: seq<HistoryEntry>
    var nextId: nat

    // What the protocol observes of this object and of the outside world.
    ghost const start: World
    ghost var acts: seq<Act>
    ghost var worlds: seq<World>
    ghost var world: World

    /** `world` is this object seen as a protocol state. */
    ghost predicate Mirrored()
      reads `world, `stored, `stepTable, `nextId, `lastHash, `history, columns
    {
      && columns.loopState.Known?
      && world.id == taskId && world.maxSteps == maxSteps
      && world.task == stored && world.steps == stepTable
      && (forall id :: id in world.issued ==> id < nextId)
      && (world.process.Live? ==>
            && world.process.row == columns.Value()
            && (world.process.head.Some? ==> world.process.head.value == lastHash && history == Entries(stepTable)))
    }

    /** `acts` is a run from `start` to `world`. */
    ghost predicate Tracked()
      reads `world, `acts, `worlds
    {
      Chain(worlds, acts) && worlds[0] == start && worlds[|acts|] == world
    }

    ghost predicate Valid()
      reads `world, `stored, `stepTable, `nextId, `lastHash, `history, `acts, `worlds, columns
    {
      Mirrored() && Tracked()
    }

    /** The in-memory columns other than the policy's equal the committed ones. */
    ghost predicate InSync()
      reads `operationJournal, `pendingAction, `pendingQuestion, `contractStatus, `stepsUsed, `stored
    {
      && operationJournal == stored.journal && pendingAction == stored.pending
      && pendingQuestion == stored.question && contractStatus == stored.contract
      && stepsUsed == stored.stepsUsed
    }

    ghost predicate In(phase: Phase, state: LoopState)
      reads `world, columns
    {
      && world.process.Live? && world.process.phase == phase && world.process.head.Some?
      && columns.loopState == Known(state) && columns.status == StatusOf(state)
    }

    /** A live run between operations, its history rebuilt. */
    ghost predicate Running(state: LoopState)
      reads `world, `stored, `stepTable, `nextId, `lastHash, `history, `acts, `worlds, columns, `operationJournal,
            `pendingAction, `pendingQuestion, `contractStatus, `stepsUsed
    {
      Valid() && InSync() && In(Ready, state) && Executing(contractStatus) && operationJournal == None
    }

    ghost predicate AtHead()
      reads `world, `stored, `stepTable, `nextId, `lastHash, `history, `acts, `worlds, columns, `operationJournal,
            `pendingAction, `pendingQuestion, `contractStatus, `stepsUsed
    {
      Running(Planning) && stored.row == columns.Value() && pendingAction == None
    }

    /** The process is gone and the committed row does not say running. */
    ghost predicate Settled()
      reads `world, `stored, `stepTable, `nextId, `lastHash, `history, `acts, `worlds, columns
    {
      Valid() && world.process == Idle && stored.row.status != RUNNING
    }

    /** An exception is propagating: failing the task is still allowed. */
    ghost predicate Propagating()
      reads `world, `stored, `stepTable, `nextId, `lastHash, `history, `acts, `worlds, columns, `operationJournal,
            `pendingAction, `pendingQuestion, `contractStatus, `stepsUsed
    {
      && Valid() && InSync() && world.process.Live? && world.process.phase != Claimed
      && columns.loopState.state in WORKING && columns.status == RUNNING
    }

    ghost predicate After(o: Outcome, number: nat)
      reads `world, `stored, `stepTable, `nextId, `lastHash, `history, `acts, `worlds, columns, `operationJournal,
            `pendingAction, `pendingQuestion, `contractStatus, `stepsUsed
    {
      match o
      case Continue => AtHead() && stepsUsed == number
      case Ended => Settled()
      case Raised => Propagating()
    }

    /** A fresh process over what the database holds. */
    constructor (w: World, nextId: nat, tokens: nat, tokenBudget: nat, hasRubric: bool, limits: Limits)
      requires w.process == Idle && forall id :: id in w.issued ==> id < nextId
      ensures Valid() && InSync() && world == w && start == w && acts == []
      ensures fresh(columns) && columns.Value() == w.task.row
    {
      taskId, maxSteps, this.tokenBudget, this.limits := w.id, w.maxSteps, tokenBudget, limits;
      operationJournal, pendingAction, pendingQuestion := w.task.journal, w.task.pending, w.task.question;
      contractStatus, stepsUsed, tokensUsed, this.hasRubric := w.task.contract, w.task.stepsUsed, tokens, hasRubric;
      stored, stepTable := w.task, w.steps;
      lastHash, history, this.nextId := Blank, [], nextId;
      start, acts, worlds, world := w, [], [w], w;
      var target := new TransitionTarget(w.task.row.attempt);
      columns := target;
      new;
      columns.Load(w.task.row);
    }

    // ---- Atomic parts --------------------------------------------------------------

    /** Notes an act the caller has just performed. */
    ghost method Observe(a: Act)
      requires Tracked() && Do(world, a).Some?
      modifies `acts, `worlds, `world
      ensures acts == old(acts) + [a] && Do(old(world), a) == Some(world)
      ensures Tracked()
    {
      acts := acts + [a];
      world := Do(world, a).value;
      worlds := worlds + [world];
    }

    /** The policy raises on a refused event; every call below proves it cannot. */
    method Transition(event: LoopEvent, reason: string, stop: Option<StopReason>)
      requires Valid() && world.process.Live? && world.process.phase != Claimed && AgentEvent(event)
      requires ApplyEvent(columns.Value(), event, stop).Ok?
      modifies columns, `acts, `worlds, `world
      ensures Valid() && columns.Value() == ApplyEvent(old(columns.Value()), event, stop).value
      ensures acts == old(acts) + [DoTransition(event, stop)]
      ensures world == old(world).(process := old(world).process.(row := columns.Value()))
    {
      var r := columns.Apply(event, reason, stop);
      assert r.Ok?;
      Observe(DoTransition(event, stop));
    }

    function Snapshot(): Task
      reads `operationJournal, `pendingAction, `pendingQuestion, `contractStatus, `stepsUsed, columns
      requires columns.loopState.Known?
    {
      Task(columns.Value(), operationJournal, pendingAction, pendingQuestion, contractStatus, stepsUsed)
    }

    /** A plain commit; `pause` is the pending action it makes durable, if any. */
    method CommitAll(ghost pause: Option<Pending>)
      requires Valid() && CanCommit(world, contractStatus, pause)
      requires operationJournal == stored.journal && stepsUsed == stored.stepsUsed
      requires pendingAction == if pause.Some? then pause else stored.pending
      modifies `stored, `acts, `worlds, `world
      ensures Valid() && InSync() && stored.row == columns.Value()
      ensures world == Commit(old(world), contractStatus, pendingQuestion, pause)
      ensures acts == old(acts) + [DoCommit(contractStatus, pendingQuestion, pause)]
    {
      stored := Snapshot();
      Observe(DoCommit(contractStatus, pendingQuestion, pause));
    }

    /** One transition and the commit that makes it durable, with whatever else was set before. */
    method Advance(event: LoopEvent, reason: string, stop: Option<StopReason>)
      requires Valid() && world.process.Live? && world.process.phase != Claimed && AgentEvent(event)
      requires ApplyEvent(columns.Value(), event, stop).Ok?
      requires CanCommit(Moved(world, event, stop), contractStatus, None)
      requires operationJournal == stored.journal && stepsUsed == stored.stepsUsed && pendingAction == stored.pending
      modifies columns, `stored, `acts, `worlds, `world
      ensures Valid() && InSync() && stored.row == columns.Value()
      ensures columns.Value() == ApplyEvent(old(columns.Value()), event, stop).value
      ensures world.process == Onward(columns.Value(), old(world).process.phase, old(world).process.head)
      ensures world.executed == old(world).executed
    {
      Transition(event, reason, stop);
      CommitAll(None);
    }

    static function OriginOf(p: Option<Pending>): Option<nat> {
      if p.Some? then Some(p.value.step) else None
    }

    /** The operation that would be journaled next. */
    function NextOp(tool: Tool, args: Args): Op
      reads `nextId, `stepsUsed, `stored
    {
      Op(nextId, stepsUsed + 1, tool, ExecutionArgs(tool, args, nextId), OriginOf(stored.pending))
    }

    ghost method ObserveBegin(op: Op)
      requires Tracked() && CanBegin(world, op)
      modifies `acts, `worlds, `world
      ensures Tracked() && world == Begin(old(world), op)
    {
      Observe(DoBegin(op));
    }

    /** The write-ahead commit of the journal; an approved action leaves the row in the same commit. */
    method CommitJournal(op: Op)
      requires Valid() && CanBegin(world, op) && op.id == nextId && pendingAction == None
      requires contractStatus == stored.contract && pendingQuestion == stored.question && stepsUsed == stored.stepsUsed
      modifies `operationJournal, `stored, `nextId, `acts, `worlds, `world
      ensures Valid() && InSync() && stored.row == columns.Value()
      ensures world == Begin(old(world), op)
    {
      ObserveBegin(op);
      nextId := nextId + 1;
      operationJournal := Some(op);
      stored := Snapshot();
    }

    /** Journals the operation and commits before anything runs. */
    method BeginOperation(number: nat, tool: Tool, args: Args) returns (executionArgs: Args)
      requires Valid() && In(Ready, Acting)
      requires contractStatus == stored.contract && Executing(contractStatus) && pendingQuestion == stored.question
      requires pendingAction == None && number == stepsUsed + 1 && stepsUsed == stored.stepsUsed
      requires stored.pending == None ==> !ExternalTool(tool) && number <= maxSteps
      requires stored.pending.Some? ==> tool == stored.pending.value.tool && args == stored.pending.value.args
      modifies `operationJournal, `stored, `nextId, `acts, `worlds, `world
      ensures Valid() && InSync() && stored.row == columns.Value()
      ensures executionArgs == ExecutionArgs(tool, args, old(nextId))
      ensures world == Begin(old(world), old(NextOp(tool, args)))
    {
      executionArgs := args;
      if tool == SendEmail || tool == CreateEvent {
        executionArgs := executionArgs.(operation := Some(nextId));
      }
      CommitJournal(NextOp(tool, args));
    }

    /** The side effect of the journaled operation. */
    ghost method PerformSideEffect()
      requires Valid() && world.process.Live? && world.process.phase.Begun?
      modifies `acts, `worlds, `world
      ensures Valid()
      ensures world == old(world).(process := old(world).process.(phase := Ran(old(world).process.phase.op)),
                                   executed := old(world).executed + [old(world).process.phase.op])
    {
      Observe(DoExecute);
    }

    /** The sealed row, the new head, and the entry the planner will see. */
    method AppendStep(content: Content, thought: string)
      modifies `stepTable, `lastHash, `history
      ensures stepTable == old(stepTable) + [NewStep(old(lastHash), content, thought)]
      ensures lastHash == StepHash(old(lastHash), content, thought)
      ensures history == old(history) + [Entry(Last(stepTable))]
      ensures old(history) == Entries(old(stepTable)) ==> history == Entries(stepTable)
    {
      EntriesGrow(stepTable, NewStep(lastHash, content, thought));
      var prevHash := lastHash;
      var thisHash := StepHash(prevHash, content, thought);
      stepTable := stepTable + [Step(content, thought, Some(prevHash), thisHash)];
      lastHash := thisHash;
      history := history + [HistoryEntry(content.number, thought, content.tool, content.args, content.observation, content.status)];
    }

    /** Exactly one step was added, sealed on `prev`. */
    ghost predicate Added(before: seq<Step>, prev: Digest, content: Content, thought: string)
      reads `stepTable, `lastHash
    {
      stepTable == before + [NewStep(prev, content, thought)] && lastHash == StepHash(prev, content, thought)
    }

    ghost method ObserveRecord(content: Content, thought: string)
      requires Tracked() && CanRecord(world, content)
      modifies `acts, `worlds, `world
      ensures Tracked()
      ensures world == Record(old(world), content, thought)
    {
      Observe(DoRecord(content, thought));
    }

    /** The sealed step and the counter in the row that is committed with it. */
    method CommitStep(content: Content, thought: string)
      requires Mirrored() && Tracked() && columns.status == RUNNING && CanRecord(world, content)
      requires pendingAction == stored.pending && pendingQuestion == stored.question && contractStatus == stored.contract
      requires stepsUsed == stored.stepsUsed + 1 && operationJournal == None
      modifies `stored, `stepTable, `lastHash, `history, `acts, `worlds, `world
      ensures Valid() && InSync() && stored.row == columns.Value()
      ensures world == Record(old(world), content, thought)
      ensures Added(old(stepTable), old(lastHash), content, thought)
    {
      ObserveRecord(content, thought);
      AppendStep(content, thought);
      stored := Snapshot();
    }

    /** Seals and commits one step; the journal is emptied in the same commit. */
    method RecordStep(number: nat, thought: string, tool: Tool, args: Args, observation: string, status: ToolStatus, tokens: nat)
      requires Valid() && InSync() && columns.status == RUNNING
      requires CanRecord(world, Content(number, tool, args, observation, status, tokens))
      modifies `operationJournal, `stepsUsed, `tokensUsed, `stored, `stepTable, `lastHash, `history, `acts, `worlds, `world
      ensures Valid() && InSync() && operationJournal == None && stepsUsed == number
      ensures stored.row == columns.Value() && tokensUsed == old(tokensUsed) + tokens
      ensures world == Record(old(world), Content(number, tool, args, observation, status, tokens), thought)
      ensures Added(old(stepTable), old(lastHash), Content(number, tool, args, observation, status, tokens), thought)
    {
      var content := Content(number, tool, args, observation, status, tokens);
      operationJournal, stepsUsed, tokensUsed := None, number, tokensUsed + tokens;
      CommitStep(content, thought);
    }

    method LoadHistory()
      modifies `lastHash, `history
      ensures history == Entries(stepTable) && lastHash == Head(taskId, stepTable)
    {
      history := Entries(stepTable);
      lastHash := if stepTable == [] then Genesis(taskId) else Last(stepTable).hash;
    }

    /** Working memory and chain head from the persisted steps. */
    method RebuildHistory()
      requires Valid() && world.process.Live? && world.process.phase == Ready
      modifies `lastHash, `history, `acts, `worlds, `world
      ensures Valid() && lastHash == Head(taskId, stepTable)
      ensures world == old(world).(process := old(world).process.(head := Some(lastHash)))
    {
      Observe(DoRebuild);
      LoadHistory();
    }

    // ---- Ends of a run -------------------------------------------------------------

    method FailTask(reason: string)
      requires Valid() && InSync() && world.process.Live? && world.process.phase != Claimed
      requires columns.loopState.state in WORKING
      modifies columns, `stored, `acts, `worlds, `world
      ensures Settled() && stored.row.state == Failed && world.executed == old(world).executed
    {
      Advance(Fail, reason, None);
    }

    method Stop(reason: StopReason)
      requires Valid() && InSync() && world.process.Live? && world.process.phase == Ready
      requires columns.loopState.state in WORKING
      requires if reason == GoalAchieved then columns.loopState.state == Verifying else BoundedStop(Some(reason))
      modifies columns, `stored, `acts, `worlds, `world
      ensures Settled() && stored.row.stop == Some(reason) && world.executed == old(world).executed
      ensures stored.row.state == if reason == GoalAchieved then Completed else Stopped
    {
      Advance(if reason == GoalAchieved then VerificationAccepted else LimitReached, "bounded_stop", Some(reason));
    }

    /** A step that is no operation: the state stays, and nothing is executed. */
    method RecordAside(ghost state: LoopState, number: nat, thought: string, tool: Tool, args: Args,
          observation: string, status: ToolStatus, tokens: nat)
      requires Running(state) && state in WORKING && pendingAction == None && number == stepsUsed + 1 <= maxSteps
      requires status == OK ==> tool == Finish || tool == AskUser
      modifies this
      ensures Running(state) && pendingAction == None && stepsUsed == number
      ensures world.executed == old(world).executed && unchanged(columns)
      ensures Added(old(stepTable), old(lastHash), Content(number, tool, args, observation, status, tokens), thought)
    {
      RecordStep(number, thought, tool, args, observation, status, tokens);
    }

    /** The last step is the action that `p` keeps for the user's decision. */
    ghost predicate ShowsPending(p: Pending)
      reads `stepTable, `stepsUsed
    {
      && stepTable != [] && p.step == stepsUsed <= maxSteps
      && Last(stepTable).content.tool == p.tool && Last(stepTable).content.args == p.args
    }

    /** The columns and the commit that hand the task to the user, with a question and perhaps an action to decide. */
    method Suspend(action: Option<Pending>, question: string, reason: string)
      requires Valid() && In(Ready, Acting) && stored.pending == None
      requires operationJournal == stored.journal && stepsUsed == stored.stepsUsed
      requires contractStatus == stored.contract && Executing(contractStatus)
      requires action.Some? ==> ShowsPending(action.value)
      modifies `pendingAction, `pendingQuestion, columns, `stored, `acts, `worlds, `world
      ensures Settled() && stored.row.state == if action.Some? then AwaitingApproval else AwaitingInput
      ensures stored.pending == action && stored.question == Some(question)
      ensures world.executed == old(world).executed
    {
      PauseMayBeCommitted(world, action);
      pendingAction, pendingQuestion := action, Some(question);
      Transition(PauseEvent(action), reason, None);
      CommitAll(action);
    }

    method PauseForUser(number: nat, question: string, thought: string, tokens: nat)
      requires Running(Acting) && pendingAction == None && number == stepsUsed + 1 <= maxSteps
      modifies this, columns
      ensures Settled() && stored.row.state == AwaitingInput && stored.question == Some(question)
      ensures Added(old(stepTable), old(lastHash),
                    Content(number, AskUser, Args(question, None), "Waiting for the user's answer.", OK, tokens), thought)
      ensures world.executed == old(world).executed
    {
      RecordAside(Acting, number, thought, AskUser, Args(question, None), "Waiting for the user's answer.", OK, tokens);
      Suspend(None, question, "agent_requested_input");
    }

    /** The action is stored, not run; the task is paused on it. */
    method PauseForAction(tool: Tool, args: Args, number: nat, summary: string, thought: string, tokens: nat)
      requires Running(Acting) && pendingAction == None && number == stepsUsed + 1 <= maxSteps
      modifies this, columns
      ensures Settled() && stored.row.state == AwaitingApproval && stored.pending == Some(Pending(number, tool, args))
      ensures Added(old(stepTable), old(lastHash),
                    Content(number, tool, args, "Paused: needs your approval to " + summary, BLOCKED, tokens), thought)
      ensures world.executed == old(world).executed
    {
      RecordAside(Acting, number, thought, tool, args, "Paused: needs your approval to " + summary, BLOCKED, tokens);
      Suspend(Some(Pending(number, tool, args)), "Approve this action? Answer yes or no. " + summary, "approval_required");
    }

    /** The row was cancelled by the user; the refresh at the loop head sees it. */
    method ObserveCancellation()
      requires AtHead()
      modifies columns, `stored, `acts, `worlds, `world
      ensures Settled() && stored.row.state == Cancelled
    {
      Observe(DoCancel);
      var row := ApplyEvent(stored.row, Cancel, None);
      stored := stored.(row := row.value);
      columns.Load(row.value);
    }

    /** The checks that close an ordinary iteration. */
    method CloseTurn(number: nat, checkBudget: bool, noProgress: nat) returns (o: Outcome)
      requires AtHead()
      modifies columns, `stored, `acts, `worlds, `world
      ensures o != Raised && (o == Continue ==> AtHead() && unchanged(columns)) && (o == Ended ==> Settled())
      ensures o == Continue ==> number < maxSteps
    {
      if number >= maxSteps {
        Stop(MaxSteps);
        return Ended;
      }
      if checkBudget && tokensUsed >= tokenBudget {
        Stop(BudgetExhausted);
        return Ended;
      }
      if noProgress >= limits.stuckThreshold {
        Stop(Stuck);
        return Ended;
      }
      return Continue;
    }

    // ---- One iteration, by kind of decision -------------------------------------------

    /** The verifier gave no verdict: the attempt is recorded as an error and the run is over. */
    method FinishUnverified(number: nat, thought: string, args: Args,
          observation: string, budgetExhausted: bool, tokens: nat) returns (o: Outcome)
      requires Running(Verifying) && pendingAction == None && number == stepsUsed + 1 <= maxSteps
      modifies this, columns
      ensures o == if budgetExhausted then Ended else Raised
      ensures o == Ended ==> Settled() && stored.row.state == Stopped
      ensures o == Raised ==> Propagating()
      ensures Added(old(stepTable), old(lastHash), Content(number, Finish, args, observation, ERROR, tokens), thought)
    {
      RecordAside(Verifying, number, thought, Finish, args, observation, ERROR, tokens);
      if budgetExhausted {
        Stop(BudgetExhausted);
        return Ended;
      }
      return Raised;
    }

    /** The verifier judged: the task completes exactly if it accepted and the receipt was built, and goes on if it rejected. */
    method FinishJudged(number: nat, thought: string, args: Args, observation: string, accepted: bool, receiptBuilt: bool, tokens: nat)
      returns (o: Outcome)
      requires Running(Verifying) && pendingAction == None && number == stepsUsed + 1 <= maxSteps
      modifies this, columns
      ensures o == if !accepted then Continue else if receiptBuilt then Ended else Raised
      ensures o == Ended ==> Settled() && stored.row.state == Completed
      ensures o == Raised ==> Propagating()
      ensures o == Continue ==>
                Running(Verifying) && pendingAction == None && stepsUsed == number && world.executed == old(world).executed
      ensures Added(old(stepTable), old(lastHash), Content(number, Finish, args, observation, OK, tokens), thought)
    {
      RecordAside(Verifying, number, thought, Finish, args, observation, OK, tokens);
      if !accepted { return Continue; }
      if !receiptBuilt { return Raised; }
      Stop(GoalAchieved);
      return Ended;
    }

    /** Records a finish attempt and acts on the verdict; Continue means it was rejected. */
    method HandleFinish(number: nat, thought: string, args: Args, planTokens: nat, verdict: Verdict) returns (o: Outcome)
      requires Running(Verifying) && pendingAction == None && number == stepsUsed + 1 <= maxSteps
      modifies this, columns
      ensures o == Continue ==>
                Running(Verifying) && pendingAction == None && stepsUsed == number && world.executed == old(world).executed
      ensures o == Ended ==> Settled() && (stored.row.state == Completed <==> verdict.Judged?)
      ensures o == Raised ==> Propagating()
      ensures verdict.Judged? ==> o == if !verdict.accepted then Continue else if verdict.receiptBuilt then Ended else Raised
      ensures verdict.ChecksRaised? ==> o == Raised && stepTable == old(stepTable)
      ensures !verdict.ChecksRaised? ==> Added(old(stepTable), old(lastHash), FinishContent(number, args, planTokens, verdict), thought)
    {
      match verdict {
        case ChecksRaised =>
          return Raised;
        case VerifierFailed(observation, budgetExhausted, spent) =>
          assert FinishContent(number, args, planTokens, verdict) == Content(number, Finish, args, observation, ERROR, planTokens + spent);
          o := FinishUnverified(number, thought, args, observation, budgetExhausted, planTokens + spent);
        case Judged(accepted, observation, tokens, receiptBuilt) =>
          assert FinishContent(number, args, planTokens, verdict) == Content(number, Finish, args, observation, OK, planTokens + tokens);
          o := FinishJudged(number, thought, args, observation, accepted, receiptBuilt, planTokens + tokens);
      }
    }

    method RejectFinish()
      requires Running(Verifying) && pendingAction == None
      modifies columns, `stored, `acts, `worlds, `world
      ensures AtHead()
    {
      Advance(VerificationRejected, "verification_rejected", None);
    }

    /** A step recorded without an operation: blocked or invalid decisions. */
    method RecordUnexecuted(number: nat, thought: string, tool: Tool, args: Args, observation: string, status: ToolStatus, tokens: nat)
      requires Running(Acting) && pendingAction == None && number == stepsUsed + 1 <= maxSteps && status != OK
      modifies this, columns
      ensures AtHead() && stepsUsed == number && world.executed == old(world).executed
      ensures Added(old(stepTable), old(lastHash), Content(number, tool, args, observation, status, tokens), thought)
    {
      Transition(ActionRecorded, "action_blocked", None);
      RecordStep(number, thought, tool, args, observation, status, tokens);
    }

    /** Journal, side effect, record. */
    method RunOperation(number: nat, thought: string, tool: Tool, args: Args, outcome: ToolOutcome, tokens: nat) returns (o: Outcome)
      requires Valid() && In(Ready, Acting) && pendingQuestion == stored.question
      requires contractStatus == stored.contract && Executing(contractStatus)
      requires pendingAction == None && number == stepsUsed + 1 && stepsUsed == stored.stepsUsed
      requires stored.pending == None ==> !ExternalTool(tool) && number <= maxSteps
      requires stored.pending.Some? ==> tool == stored.pending.value.tool && args == stored.pending.value.args
      modifies this, columns
      ensures o != Ended
      ensures o == Continue <==> outcome.ToolReturned?
      ensures world.executed == old(world).executed + [old(NextOp(tool, args))]
      ensures o == Continue ==> AtHead() && stepsUsed == number
      ensures o == Continue ==>
        Added(old(stepTable), old(lastHash),
              Content(number, tool, ExecutionArgs(tool, args, old(nextId)), outcome.observation, outcome.status, tokens), thought)
      ensures o == Raised ==> Propagating() && stored.journal == Some(Last(world.executed)) && stepTable == old(stepTable)
    {
      var executionArgs := BeginOperation(number, tool, args);
      PerformSideEffect();
      if outcome.ToolRaised? {
        return Raised;
      }
      FinishOperation(number, thought, tool, executionArgs, outcome.observation, outcome.status, tokens);
      return Continue;
    }

    method FinishOperation(number: nat, thought: string, tool: Tool, args: Args, observation: string, status: ToolStatus, tokens: nat)
      requires Valid() && InSync() && world.process.Live? && world.process.head.Some? && pendingAction == None
      requires columns.loopState == Known(Acting) && columns.status == RUNNING && Executing(contractStatus)
      requires number == stepsUsed + 1
      requires match world.process.phase
               case Claimed | Ready => false
               case Begun(op) => op.origin == None && tool == op.tool && args == op.args && status != OK
               case Ran(op) => tool == op.tool && args == op.args
      modifies this, columns
      ensures AtHead() && stepsUsed == number && world.executed == old(world).executed
      ensures Added(old(stepTable), old(lastHash), Content(number, tool, args, observation, status, tokens), thought)
    {
      Transition(ActionRecorded, "action_recorded", None);
      RecordStep(number, thought, tool, args, observation, status, tokens);
    }

    /** The approved action leaves the task object; the committed row keeps it until the journal is written. */
    method SelectApproved() returns (action: Pending)
      requires Running(Planning) && stored.row == columns.Value() && pendingAction.Some?
      modifies `pendingAction, columns, `acts, `worlds, `world
      ensures Valid() && In(Ready, Acting) && pendingAction == None && stored.pending == Some(action) && old(pendingAction) == Some(action)
      ensures world.executed == old(world).executed
    {
      action := pendingAction.value;
      pendingAction := None;
      Transition(ActionSelected, "approved_action_selected", None);
    }

    method ExecuteApproved(outcome: ToolOutcome) returns (o: Outcome)
      requires Running(Planning) && stored.row == columns.Value() && pendingAction.Some?
      modifies this, columns
      ensures o == Continue ==> AtHead() && stepsUsed == old(stepsUsed) + 1
      ensures o != Ended && (o == Raised ==> Propagating())
      ensures world.executed == old(world).executed + [old(NextOp(pendingAction.value.tool, pendingAction.value.args))]
    {
      var action := SelectApproved();
      o := RunOperation(stepsUsed + 1, "(approved by the user)", action.tool, action.args, outcome, 0);
    }

    /** Resuming from an approved action: it runs now, as the next step. */
    method RunApproved(outcome: ToolOutcome) returns (o: Outcome)
      requires Running(Planning) && stored.row == columns.Value() && pendingAction.Some?
      modifies this, columns
      ensures o == Continue ==> AtHead() && stepsUsed == old(stepsUsed) + 1 <= maxSteps
      ensures o == Ended ==> Settled()
      ensures o == Raised ==> Propagating()
      ensures world.executed == old(world).executed + [old(NextOp(pendingAction.value.tool, pendingAction.value.args))]
    {
      var number := stepsUsed + 1;
      o := ExecuteApproved(outcome);
      if o == Continue && number + 1 > maxSteps {
        Stop(MaxSteps);
        return Ended;
      }
    }

    method FinishTurn(number: nat, turn: Turn, lastRejected: Option<nat>, retries: nat) returns (o: Outcome)
      requires AtHead() && number == stepsUsed + 1 <= maxSteps && turn.reply.Replied?
      modifies this, columns
      ensures After(o, number)
    {
      if lastRejected == Some(turn.markerBefore) {
        RecordStep(number, turn.reply.thought, Finish, turn.reply.args, "Blocked: unchanged workspace", BLOCKED, turn.reply.tokens);
        Stop(Stuck);
        return Ended;
      }
      Transition(VerificationRequested, "finish_requested", None);
      o := HandleFinish(number, turn.reply.thought, turn.reply.args, turn.reply.tokens, turn.verdict);
      if o == Continue {
        RejectFinish();
        if retries + 1 > limits.finishRetries {
          Stop(Stuck);
          return Ended;
        }
      }
    }

    method RememberTurn(number: nat, turn: Turn) returns (o: Outcome)
      requires Running(Acting) && pendingAction == None && number == stepsUsed + 1 <= maxSteps && turn.reply.Replied?
      modifies this, columns
      ensures After(o, number)
    {
      var outcome := if turn.outcome.ToolReturned? then turn.outcome.(status := OK) else turn.outcome;
      o := RunOperation(number, turn.reply.thought, Remember, turn.reply.args, outcome, turn.reply.tokens);
      if o == Continue {
        o := CloseTurn(number, false, turn.noProgress);
      }
    }

    /** The delegation itself; a refusal inside it leaves the journaled operation unexecuted. */
    method HandleSpawn(number: nat, thought: string, args: Args, delegation: Delegation, planTokens: nat) returns (o: Outcome)
      requires Running(Acting) && pendingAction == None && number == stepsUsed + 1 <= maxSteps
      modifies this, columns
      ensures o != Ended && (o == Continue ==> AtHead() && stepsUsed == number) && (o == Raised ==> Propagating())
      ensures o == Raised <==> delegation.DelegationRaised?
      ensures world.executed ==
                if delegation.DelegationRefused? || delegation == DelegationRaised(false) then old(world).executed
                else old(world).executed + [old(NextOp(Spawn, args))]
    {
      var executionArgs := BeginOperation(number, Spawn, args);
      match delegation {
        case DelegationRefused(observation, blocked) =>
          FinishOperation(number, thought, Spawn, executionArgs, observation, if blocked then BLOCKED else ERROR, planTokens);
        case DelegationRaised(started) =>
          if started { PerformSideEffect(); }
          return Raised;
        case ChildRan(observation, ok, childTokens) =>
          PerformSideEffect();
          tokensUsed := tokensUsed + childTokens;
          FinishOperation(number, thought, Spawn, executionArgs, observation, if ok then OK else ERROR, planTokens);
      }
      return Continue;
    }

    method SpawnTurn(number: nat, turn: Turn) returns (o: Outcome)
      requires Running(Acting) && pendingAction == None && number == stepsUsed + 1 <= maxSteps && turn.reply.Replied?
      modifies this, columns
      ensures After(o, number)
    {
      if turn.guardBlock.Some? {
        RecordUnexecuted(number, turn.reply.thought, Spawn, turn.reply.args, turn.guardBlock.value, BLOCKED, turn.reply.tokens);
      } else {
        o := HandleSpawn(number, turn.reply.thought, turn.reply.args, turn.delegation, turn.reply.tokens);
        if o == Raised { return; }
      }
      o := CloseTurn(number, true, turn.noProgress);
    }

    /** The contract's own checks pass: submit at once, as the next step number. */
    method AutoFinish(number: nat, turn: Turn, retries: nat) returns (o: Outcome)
      requires AtHead() && stepsUsed == number < maxSteps
      modifies this, columns
      ensures After(o, number + 1)
    {
      Transition(VerificationRequested, "contract_evidence_ready", None);
      o := HandleFinish(number + 1, "[Loop] User-required checks pass.", Args("", None), 0, turn.verdict);
      if o == Continue {
        RejectFinish();
        if turn.raises == AfterRejection { return Raised; }
        if retries + 1 > limits.finishRetries {
          Stop(Stuck);
          return Ended;
        }
        if tokensUsed >= tokenBudget {
          Stop(BudgetExhausted);
          return Ended;
        }
      }
    }

    /** Every other decision: routed, then executed, refused or paused. */
    method Dispatch(number: nat, turn: Turn, writes: nat) returns (o: Outcome, status: ToolStatus)
      requires Running(Acting) && pendingAction == None && number == stepsUsed + 1 <= maxSteps && turn.reply.Replied?
      requires turn.reply.tool.Some? ==> !ExternalTool(turn.reply.tool.value)
      modifies this, columns
      ensures After(o, number)
      ensures o == Ended <==> Routed(turn, writes).NeedsApproval?
      ensures Routed(turn, writes) != Execute ==> world.executed == old(world).executed
      ensures Routed(turn, writes) == Execute ==>
        world.executed == old(world).executed + [old(NextOp(turn.reply.tool.value, turn.reply.args))]
    {
      var reply := turn.reply;
      status := ERROR;
      match Routed(turn, writes) {
        case InvalidAction =>
          RecordUnexecuted(number, reply.thought, Invalid, reply.args, "Could not parse a valid action.", ERROR, reply.tokens);
          o := Continue;
        case BlockedAction(reason) =>
          status := BLOCKED;
          RecordUnexecuted(number, reply.thought, reply.tool.value, reply.args, reason, BLOCKED, reply.tokens);
          o := Continue;
        case NeedsApproval(reason) =>
          PauseForAction(RunCommand, reply.args, number, reason, reply.thought, reply.tokens);
          o := Ended;
        case Execute =>
          if turn.outcome.ToolReturned? { status := turn.outcome.status; }
          o := RunOperation(number, reply.thought, reply.tool.value, reply.args, turn.outcome, reply.tokens);
      }
    }

    method DispatchTurn(number: nat, turn: Turn, writes: nat, retries: nat)
      returns (o: Outcome, status: ToolStatus, skipped: bool)
      requires Running(Acting) && pendingAction == None && number == stepsUsed + 1 <= maxSteps && turn.reply.Replied?
      requires turn.reply.tool.Some? ==> !ExternalTool(turn.reply.tool.value)
      modifies this, columns
      ensures After(o, if skipped then number + 1 else number)
      ensures skipped && o == Continue ==> number < maxSteps
    {
      skipped, status := false, ERROR;
      if turn.raises == BeforeRouting { return Raised, status, skipped; }
      o, status := Dispatch(number, turn, writes);
      if o != Continue { return; }
      if turn.raises == AfterTheStep { return Raised, status, skipped; }
      var tool := turn.reply.tool;
      var candidate := ((tool == Some(WriteFile) || tool == Some(EditFile)) && turn.markerAfter != turn.markerBefore)
                       || tool == Some(RunCommand);
      if candidate && status == OK && number < maxSteps && turn.evidenceReady {
        skipped := true;
        o := AutoFinish(number, turn, retries);
        if o != Continue { return; }
      }
      o := CloseTurn(number, true, turn.noProgress);
    }

    /** One planned decision, already parsed. */
    method ActTurn(number: nat, turn: Turn, writes: nat, retries: nat)
      returns (o: Outcome, status: ToolStatus, skipped: bool)
      requires AtHead() && number == stepsUsed + 1 <= maxSteps && turn.reply.Replied?
      requires turn.reply.tool != Some(Finish)
      modifies this, columns
      ensures After(o, if skipped then number + 1 else number)
      ensures skipped && o == Continue ==> number < maxSteps
    {
      var reply := turn.reply;
      skipped, status := false, BLOCKED;
      Transition(ActionSelected, "action_selected", None);
      if reply.tool == Some(AskUser) {
        PauseForUser(number, reply.args.text, reply.thought, reply.tokens);
        o := Ended;
      } else if (reply.tool == Some(Remember) || reply.tool == Some(Spawn)) && !turn.permitted {
        RecordUnexecuted(number, reply.thought, reply.tool.value, reply.args, "not permitted", BLOCKED, reply.tokens);
        o := CloseTurn(number, false, turn.noProgress);
      } else if reply.tool == Some(Remember) {
        o := RememberTurn(number, turn);
      } else if reply.tool == Some(Spawn) {
        o := SpawnTurn(number, turn);
      } else if reply.tool == Some(SendEmail) || reply.tool == Some(CreateEvent) {
        PauseForAction(reply.tool.value, reply.args, number, "an external action", reply.thought, reply.tokens);
        o := Ended;
      } else {
        o, status, skipped := DispatchTurn(number, turn, writes, retries);
      }
    }

    /** The rubric is generated before the first iteration of a task that has none. */
    method Understand(rubricTokens: nat)
      requires Running(Preparing) && stored.row == columns.Value()
      modifies `hasRubric, `tokensUsed, columns, `stored, `acts, `worlds, `world
      ensures Running(Understanding) && stored.row == columns.Value() && hasRubric
    {
      Advance(RubricRequired, "rubric_generation_started", None);
      hasRubric := true;
      tokensUsed := tokensUsed + rubricTokens;
    }

    /** From the prepared state to the head of the first iteration; the understanding model may raise. */
    method EnterLoop(rubricRaises: bool, rubricTokens: nat) returns (o: Outcome)
      requires Running(Preparing) || (Running(Planning) && hasRubric)
      requires stored.row == columns.Value()
      modifies `hasRubric, `tokensUsed, columns, `stored, `acts, `worlds, `world
      ensures o == if rubricRaises && !old(hasRubric) then Raised else Continue
      ensures o == Continue ==> Running(Planning) && stored.row == columns.Value() && hasRubric
      ensures o == Raised ==> Propagating()
    {
      if !hasRubric {
        Understand(rubricTokens);
        if rubricRaises { return Raised; }
        Advance(RubricReady, "rubric_ready", None);
      } else if columns.loopState == Known(Preparing) {
        Advance(PreparationCompleted, "runtime_prepared", None);
      }
      return Continue;
    }

    /** One iteration after the row was refreshed; `m` is what the loop remembers between iterations. */
    method OneTurn(number: nat, turn: Turn, m: LoopMemory) returns (o: Outcome, m': LoopMemory)
      requires AtHead() && number == stepsUsed + 1 <= maxSteps
      requires m.skipped.Some? ==> m.skipped.value <= number
      modifies this, columns
      ensures After(o, if m'.skipped == Some(number + 1) then number + 1 else number)
      ensures m'.skipped == m.skipped || m'.skipped == Some(number + 1)
    {
      m' := m;
      if tokensUsed >= tokenBudget || !turn.planningLeft {
        Stop(BudgetExhausted);
        return Ended, m';
      }
      if turn.raises == WhilePlanning { return Raised, m'; }
      if turn.reply.ReplyFailed? {
        o := PlanningFailed(turn.reply.spent, turn.reply.budgetExhausted);
        return;
      }
      var tool := turn.reply.tool;
      if tool == Some(Finish) {
        o := FinishTurn(number, turn, m.lastRejected, m.retries);
        m' := m.(lastRejected := Some(turn.markerBefore), retries := m.retries + 1);
        return;
      }
      m' := m.Wrote(tool, turn.reply.path);
      var status, skipped;
      o, status, skipped := ActTurn(number, turn, m'.sameWrites, m.retries);
      if tool != Some(Remember) && tool != Some(Spawn) && status == OK {
        m' := m'.(lastRejected := None);
      }
      if skipped {
        m' := m'.(lastRejected := Some(turn.markerAfter), retries := m.retries + 1, skipped := Some(number + 1));
      }
    }

    method PlanningFailed(spent: nat, budgetExhausted: bool) returns (o: Outcome)
      requires AtHead()
      modifies `tokensUsed, columns, `stored, `acts, `worlds, `world
      ensures o != Continue && (o == Ended ==> Settled()) && (o == Raised ==> Propagating())
    {
      tokensUsed := tokensUsed + spent;
      CommitAll(None);
      if budgetExhausted {
        Stop(BudgetExhausted);
        return Ended;
      }
      return Raised;
    }

    /**
     The loop. Whatever the model, the tools, the verifier and the user do, the state is
     planning at the head of each iteration, every transition is allowed, and the run
     ends settled or with an exception that can still fail the task.
     */
    method RunLoop(setup: Setup, turns: nat -> Turn, approvedOutcome: ToolOutcome) returns (o: Outcome)
      requires Running(Preparing) || (Running(Planning) && hasRubric)
      requires stored.row == columns.Value()
      modifies this, columns
      ensures (o == Ended && Settled()) || (o == Raised && Propagating())
    {
      o := EnterLoop(setup.rubricRaises, setup.rubricTokens);
      if o != Continue { return; }
      if pendingAction.Some? {
        o := RunApproved(approvedOutcome);
        if o != Continue { return; }
      }
      var number := stepsUsed + 1;
      var memory := LoopMemory(None, 0, 0, None, None);
      while number <= maxSteps
        invariant AtHead()
        invariant stepsUsed == if memory.skipped == Some(number) then number else number - 1
        invariant memory.skipped.Some? ==> memory.skipped.value <= number
      {
        if memory.skipped != Some(number) {
          var turn := turns(number);
          if turn.cancelled {
            ObserveCancellation();
            return Ended;
          }
          o, memory := OneTurn(number, turn, memory);
          if o != Continue { return; }
        }
        number := number + 1;
      }
      if setup.cancelledAtEnd {
        ObserveCancellation();
      } else {
        Stop(MaxSteps);
      }
      return Ended;
    }

    // ---- From claim to end ---------------------------------------------------------------

    /** Claimed, checked for an operation in flight, and committed up to date. */
    ghost predicate Prepared(state: LoopState)
      reads `world, `stored, `stepTable, `nextId, `lastHash, `history, `acts, `worlds, columns, `operationJournal,
            `pendingAction, `pendingQuestion, `contractStatus, `stepsUsed
    {
      && Valid() && InSync() && world.process.Live? && world.process.phase == Ready && operationJournal == None
      && columns.loopState == Known(state) && columns.status == StatusOf(state) && stored.row == columns.Value()
    }

    /** An exception nobody handles: the process is gone and the session's changes are lost. */
    method Abandon()
      requires Valid() && world.process.Live? && stored.row.status == RUNNING
      modifies `acts, `worlds, `world
      ensures Valid() && LeftRunning(world) && world == old(world).(process := Idle)
    {
      Observe(DoCrash);
    }

    /** How a stage left the run, if it did not pass. */
    ghost predicate Left(r: Stage)
      reads `world, `stored, `stepTable, `nextId, `lastHash, `history, `acts, `worlds, columns
    {
      match r
      case Passed => true
      case Settles => Settled()
      case Raises => Valid() && LeftRunning(world)
    }

    /** Locks one acceptance source; or settles the run, failed or paused for a clarification; or raises. */
    method PrepareContract(setup: Setup) returns (r: Stage)
      requires Prepared(Preparing) && contractStatus != Clarifying && contractStatus != NotRequired
      requires contractStatus == Uncompiled ==> pendingAction == None
      modifies `contractStatus, `pendingQuestion, `hasRubric, `tokensUsed, columns, `stored, `acts, `worlds, `world
      ensures r == ContractStage(setup, old(contractStatus)) && Left(r) && world.executed == old(world).executed
      ensures r == Passed ==> contractStatus == Locked && hasRubric && (Prepared(Preparing) || Prepared(Planning))
    {
      if contractStatus == Locked {
        if !setup.hashValid {
          FailTask("contract_hash_invalid");
          return Settles;
        }
        hasRubric := true;
        return Passed;
      }
      if setup.userCriteria {
        if setup.contractRaises {
          Abandon();
          return Raises;
        }
        contractStatus, hasRubric := Locked, true;
        CommitAll(None);
        return Passed;
      }
      r := CompileContract(setup);
    }

    method CompileContract(setup: Setup) returns (r: Stage)
      requires Prepared(Preparing) && contractStatus == Uncompiled && pendingAction == None && !setup.userCriteria
      modifies `contractStatus, `pendingQuestion, `hasRubric, `tokensUsed, columns, `stored, `acts, `worlds, `world
      ensures r == ContractStage(setup, Uncompiled) && Left(r) && world.executed == old(world).executed
      ensures r == Passed ==> contractStatus == Locked && hasRubric && Prepared(Planning)
      ensures r == Settles ==> contractStatus == Clarifying && stored.row.state == AwaitingInput
      ensures r == Raises ==> stored.row.state == Understanding
    {
      Advance(ContractRequired, "contract_compilation_started", None);
      if setup.contractRaises {
        Abandon();
        return Raises;
      }
      tokensUsed := tokensUsed + setup.compileTokens;
      if setup.question.Some? {
        AskForClarification(setup.question.value);
        return Settles;
      }
      LockCompiledContract();
      return Passed;
    }

    method AskForClarification(question: string)
      requires Prepared(Understanding) && contractStatus == Uncompiled && pendingAction == None
      modifies `contractStatus, `pendingQuestion, columns, `stored, `acts, `worlds, `world
      ensures Settled() && contractStatus == Clarifying && stored.row.state == AwaitingInput
      ensures world.executed == old(world).executed
    {
      QuestionMayBeCommitted(world);
      contractStatus, pendingQuestion := Clarifying, Some(question);
      Advance(InputRequired, "contract_clarification_required", None);
    }

    method LockCompiledContract()
      requires Prepared(Understanding) && contractStatus == Uncompiled
      modifies `contractStatus, `pendingQuestion, `hasRubric, columns, `stored, `acts, `worlds, `world
      ensures contractStatus == Locked && hasRubric && Prepared(Planning)
      ensures world.executed == old(world).executed
    {
      contractStatus, pendingQuestion, hasRubric := Locked, None, true;
      Advance(ContractReady, "contract_locked", None);
    }

    /** The failing transition by itself; nothing is committed yet. */
    method FailColumns(reason: string)
      requires columns.loopState == Known(Preparing)
      modifies columns
      ensures columns.loopState.Known? && columns.Value() == ApplyEvent(old(columns.Value()), Fail, None).value
    {
      var r := columns.Apply(Fail, reason, None);
      assert r.Ok?;
    }

    /** An operation was in flight: its outcome is unknown, so the task fails and nothing runs. */
    method RefuseRecovery()
      requires Valid() && InSync() && world.process.Live? && world.process.phase == Claimed && operationJournal.Some?
      requires columns.Value() == stored.row && columns.loopState == Known(Preparing)
      modifies columns, `stored, `history, `lastHash, `acts, `worlds, `world
      ensures Settled() && stored.row.state == Failed && stored.journal == old(stored.journal)
      ensures world.executed == old(world.executed)
    {
      FailColumns("operation_outcome_unknown");
      LoadHistory();
      stored := Snapshot();
      Observe(DoRefuse);
    }

    /** The compare-and-update on the database row, then a refresh of the object from it. */
    method Claim() returns (claimed: bool)
      requires Valid() && InSync() && world.process == Idle && stored.row == columns.Value()
      modifies columns, `stored, `acts, `worlds, `world
      ensures Valid() && InSync() && stored.row == columns.Value()
      ensures claimed == ClaimRow(old(stored.row)).Some?
      ensures claimed ==>
                && columns.loopState == Known(Preparing) && columns.status == RUNNING
                && world.process == Live(stored.row, Claimed, None)
                && world.executed == old(world.executed) && stored == old(stored).(row := stored.row)
      ensures !claimed ==> world == old(world) && acts == old(acts)
    {
      claimed := columns.ClaimPending();
      if claimed {
        Observe(DoClaim);
        stored := Snapshot();
      }
    }

    /** The history is rebuilt, and the prepared task committed, before the loop. */
    method ResumeHistory(ghost state: LoopState)
      requires Prepared(state) && (state == Preparing || state == Planning) && Executing(contractStatus)
      modifies `lastHash, `history, `stored, `acts, `worlds, `world
      ensures Running(state) && stored.row == columns.Value() && world.executed == old(world).executed
    {
      RebuildHistory();
      CommitAll(None);
    }

    /** Authority and contract: what the run may do, and what it must achieve. */
    method PrepareAuthorityAndContract(setup: Setup) returns (r: Stage)
      requires Prepared(Preparing) && contractStatus != Clarifying && (contractStatus == Uncompiled ==> pendingAction == None)
      modifies `contractStatus, `pendingQuestion, `hasRubric, `tokensUsed, columns, `stored, `acts, `worlds, `world
      ensures r == if setup.authority != Passed then setup.authority else ContractStage(setup, old(contractStatus))
      ensures Left(r) && world.executed == old(world).executed
      ensures r == Passed ==> Executing(contractStatus) && (Prepared(Preparing) || (Prepared(Planning) && hasRubric))
    {
      r := PassStage(setup.authority, "invalid_authority");
      if r == Passed && contractStatus != NotRequired {
        r := PrepareContract(setup);
      }
    }

    /** Resources and history. */
    method PrepareResourcesAndHistory(setup: Setup) returns (r: Stage)
      requires (Prepared(Preparing) || Prepared(Planning)) && Executing(contractStatus)
      modifies `lastHash, `history, columns, `stored, `acts, `worlds, `world
      ensures r == if setup.resources != Passed then setup.resources else if setup.resumes then Passed else Raises
      ensures Left(r) && world.executed == old(world).executed
      ensures r == Passed ==> Running(old(columns.loopState.state)) && stored.row == columns.Value()
    {
      r := PassStage(setup.resources, "resource_unavailable");
      if r != Passed { return; }
      if !setup.resumes {
        Abandon();
        return Raises;
      }
      ResumeHistory(columns.loopState.state);
    }

    /** The first stage that does not pass ends the run. */
    method Prepare(setup: Setup) returns (r: Stage)
      requires Prepared(Preparing) && contractStatus != Clarifying && (contractStatus == Uncompiled ==> pendingAction == None)
      modifies `contractStatus, `pendingQuestion, `hasRubric, `tokensUsed, `lastHash, `history, columns, `stored, `acts,
            `worlds, `world
      ensures r == Preparation(setup, old(contractStatus)) && Left(r) && world.executed == old(world).executed
      ensures r == Passed ==> (Running(Preparing) || (Running(Planning) && hasRubric)) && stored.row == columns.Value()
    {
      r := PrepareAuthorityAndContract(setup);
      if r == Passed {
        r := PrepareResourcesAndHistory(setup);
      }
    }

    /** A stage without durable effects of its own. */
    method PassStage(stage: Stage, reason: string) returns (r: Stage)
      requires Prepared(Preparing) || Prepared(Planning)
      modifies columns, `stored, `acts, `worlds, `world
      ensures r == stage && Left(r) && world.executed == old(world).executed
      ensures r == Passed ==> unchanged(columns, `stored, `acts, `worlds, `world)
    {
      match stage {
        case Passed =>
        case Settles => FailTask(reason);
        case Raises => Abandon();
      }
      return stage;
    }

    /** Preparation and loop of a claimed task with an empty journal. */
    method RunPrepared(setup: Setup, turns: nat -> Turn, approvedOutcome: ToolOutcome)
      requires Prepared(Preparing) && contractStatus != Clarifying && (contractStatus == Uncompiled ==> pendingAction == None)
      modifies this, columns
      ensures if Preparation(setup, old(contractStatus)) == Raises then
                Valid() && LeftRunning(world) && world.executed == old(world).executed && stepTable == old(stepTable)
              else Settled()
    {
      var r := Prepare(setup);
      if r != Passed { return; }
      var o := RunLoop(setup, turns, approvedOutcome);
      if o == Raised {
        FailTask("unhandled_runtime_error");
      }
    }

    method RunClaimed(setup: Setup, turns: nat -> Turn, approvedOutcome: ToolOutcome)
      requires Valid() && InSync() && stored.row == columns.Value()
      requires world.process == Live(stored.row, Claimed, None)
      requires columns.loopState == Known(Preparing) && columns.status == RUNNING
      requires contractStatus != Clarifying && (contractStatus == Uncompiled ==> pendingAction == None)
      modifies this, columns
      ensures if Strands(setup, old(stored)) then
                Valid() && LeftRunning(world) && world.executed == old(world).executed && stepTable == old(stepTable)
              else Settled()
      ensures setup.opens && old(stored.journal).Some? ==>
                && stored.row.state == Failed && stored.journal == old(stored.journal)
                && world.executed == old(world).executed && stepTable == old(stepTable)
    {
      if !setup.opens {
        Abandon();
      } else if operationJournal.Some? {
        RefuseRecovery();
      } else {
        Observe(DoProceed);
        RunPrepared(setup, turns, approvedOutcome);
      }
    }

    /**
     A whole run over any reachable database state. Nothing happens unless the row was
     queued. Otherwise the row is left running exactly if the preparation raised before
     anything settled it, and then nothing was executed and no step added; and if an
     operation was in flight the task fails, likewise.
     */
    method Run(setup: Setup, turns: nat -> Turn, approvedOutcome: ToolOutcome) returns (claimed: bool)
      requires Valid() && InSync() && world.process == Idle && stored.row == columns.Value() && Inv(start)
      modifies this, columns
      ensures Valid() && world.process == Idle
      ensures claimed <==> old(stored.row.state) == Queued
      ensures !claimed ==> world == old(world)
      ensures claimed ==> (stored.row.status == RUNNING <==> Strands(setup, old(stored)))
      ensures claimed && (Strands(setup, old(stored)) || old(stored.journal).Some?) ==>
                world.executed == old(world.executed) && stepTable == old(stepTable)
      ensures claimed && setup.opens && old(stored.journal).Some? ==>
                stored.row.state == Failed && stored.journal == old(stored.journal)
    {
      ChainIsRun(worlds, acts);
      FactsAtClaim(start, acts);
      claimed := Claim();
      if claimed {
        RunClaimed(setup, turns, approvedOutcome);
      }
    }
  }

  /**
   One input: a freshly published task whose repository cannot be scanned while its
   contract is compiled. Its run leaves the row running in every case, with nothing done;
   only the reconciliation or a cancellation moves it then.
   */
  method RunWithFailedScan(setup: Setup, maxSteps: nat, turns: nat -> Turn, approvedOutcome: ToolOutcome, tokenBudget: nat, limits: Limits)
    returns (service: AgentService)
    requires setup.opens && setup.authority == Passed && !setup.userCriteria && setup.contractRaises
    ensures service.Valid() && service.start == Publish(0, maxSteps, Uncompiled, 1)
    ensures LeftRunning(service.world) && service.world.executed == [] && service.stepTable == []
  {
    service := new AgentService(Publish(0, maxSteps, Uncompiled, 1), 0, 0, tokenBudget, false, limits);
    var claimed := service.Run(setup, turns, approvedOutcome);
    assert claimed && Strands(setup, Publish(0, maxSteps, Uncompiled, 1).task);
  }

  lemma FactsAtClaim(start: World, acts: seq<Act>)
    requires Inv(start) && Exec(start, acts).Some?
    ensures var w := Exec(start, acts).value;
            && (ClaimRow(w.task.row).Some? <==> w.task.row.state == Queued)
            && (w.task.row.state == Queued ==> w.task.contract != Clarifying)
            && (w.task.pending.Some? ==> Executing(w.task.contract))
  {
    RunKeepsInv(start, acts);
    ClaimFacts(Exec(start, acts).value);
  }
}
