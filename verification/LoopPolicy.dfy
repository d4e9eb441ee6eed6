/**
 The transition policy of a task and every writer of its state columns.

 `Row` is the value of the five columns the policy owns (the reason text apart);
 `TransitionTarget` is the object whose columns are updated in place.
 */
module LoopPolicy {
  import opened Basics

  datatype LoopState =
    | Queued | Preparing | Understanding | Planning | Acting | Verifying
    | AwaitingInput | AwaitingApproval | Completed | Stopped | Cancelled | Failed

  datatype LoopEvent =
    | Claim | Recover | ContractRequired | ContractReady | RubricRequired
    | PreparationCompleted | RubricReady | ActionSelected | ActionRecorded
    | VerificationRequested | VerificationRejected | VerificationAccepted
    | InputRequired | ApprovalRequired | UserResponded | LimitReached | Cancel | Fail

  datatype Status = PENDING | RUNNING | AWAITING_INPUT | COMPLETED | STOPPED | CANCELLED | FAILED

  datatype StopReason = GoalAchieved | MaxSteps | BudgetExhausted | Stuck | UserCancelled | RunError

  datatype PolicyError = UnknownState | NotAllowed(source: LoopState, event: LoopEvent) | UnboundedStop

  /** What the column `loop_state` can hold: a known state, or text no state has. */
  datatype StoredState = Known(state: LoopState) | Unknown(text: string)

  const WORKING: set<LoopState> := {Preparing, Understanding, Planning, Acting, Verifying}
  const ACTIVE: set<LoopState> := {Queued, AwaitingInput, AwaitingApproval} + WORKING

  /** The rules the module writes out one by one. */
  function NamedRule(s: LoopState, e: LoopEvent): Option<LoopState> {
    match (s, e)
    case (Queued, Claim) => Some(Preparing)
    case (Preparing, ContractRequired) => Some(Understanding)
    case (Understanding, ContractReady) => Some(Planning)
    case (Preparing, RubricRequired) => Some(Understanding)
    case (Preparing, PreparationCompleted) => Some(Planning)
    case (Understanding, RubricReady) => Some(Planning)
    case (Planning, ActionSelected) => Some(Acting)
    case (Acting, ActionRecorded) => Some(Planning)
    case (Planning, VerificationRequested) => Some(Verifying)
    case (Verifying, VerificationRejected) => Some(Planning)
    case (Verifying, VerificationAccepted) => Some(Completed)
    case (Preparing, InputRequired) => Some(AwaitingInput)
    case (Understanding, InputRequired) => Some(AwaitingInput)
    case (Acting, InputRequired) => Some(AwaitingInput)
    case (Acting, ApprovalRequired) => Some(AwaitingApproval)
    case (AwaitingInput, UserResponded) => Some(Queued)
    case (AwaitingApproval, UserResponded) => Some(Queued)
    case _ => None
  }

  /** The whole policy: the named rules and those of the two state sets. */
  function Rule(s: LoopState, e: LoopEvent): Option<LoopState> {
    match e
    case Recover => if s in WORKING then Some(Preparing) else None
    case LimitReached => if s in WORKING then Some(Stopped) else None
    case Cancel => if s in ACTIVE then Some(Cancelled) else None
    case Fail => if s in ACTIVE then Some(Failed) else None
    case _ => NamedRule(s, e)
  }

  function StatusOf(s: LoopState): Status {
    match s
    case Queued => PENDING
    case Preparing | Understanding | Planning | Acting | Verifying => RUNNING
    case AwaitingInput | AwaitingApproval => AWAITING_INPUT
    case Completed => COMPLETED
    case Stopped => STOPPED
    case Cancelled => CANCELLED
    case Failed => FAILED
  }

  predicate Terminal(s: LoopState) {
    s == Completed || s == Stopped || s == Cancelled || s == Failed
  }

  predicate BoundedStop(stop: Option<StopReason>) {
    stop == Some(MaxSteps) || stop == Some(BudgetExhausted) || stop == Some(Stuck)
  }

  datatype Row = Row(state: LoopState, status: Status, stop: Option<StopReason>, sequence: nat, attempt: nat)

  /** A published task: a first publication is attempt one, a retry the attempt after the one it repeats. */
  function Published(attempt: nat): Row { Row(Queued, PENDING, None, 0, attempt) }

  function ApplyEvent(row: Row, e: LoopEvent, stop: Option<StopReason>): Result<Row, PolicyError> {
    match Rule(row.state, e)
    case None => Err(NotAllowed(row.state, e))
    case Some(target) =>
      if e == LimitReached && !BoundedStop(stop) then Err(UnboundedStop)
      else
        Ok(row.(
           state := target,
           status := StatusOf(target),
           stop := match target
                   case Completed => Some(GoalAchieved)
                   case Stopped => stop
                   case Cancelled => Some(UserCancelled)
                   case Failed => Some(RunError)
                   case _ => None,
           sequence := row.sequence + 1))
  }

  // ---- The other writers: direct SQL updates -------------------------------

  predicate Claimable(s: LoopState) { s == Queued || s in WORKING }

  /** The compare-and-update of a claim: no effect unless the row is pending. */
  function ClaimRow(row: Row): Option<Row> {
    if row.status == PENDING && Claimable(row.state) then
      Some(row.(status := RUNNING, state := Preparing, sequence := row.sequence + 1, stop := None))
    else None
  }

  function ClaimReason(s: LoopState): string {
    if s == Queued then "worker_claimed_task" else "worker_recovered_interrupted_task"
  }

  function ReconcileReason(requeue: bool): string {
    if requeue then "worker_requeued_interrupted_task" else "runner_interrupted_task"
  }

  /** One row of the crash reconciliation, in its requeue form or its fail form. */
  function ReconcileRow(row: Row, requeue: bool): Option<Row> {
    if row.status != RUNNING then None
    else if requeue then
      Some(row.(status := PENDING, state := Queued, sequence := row.sequence + 1, stop := None,
                attempt := row.attempt + 1))
    else
      Some(row.(status := FAILED, state := Failed, sequence := row.sequence + 1, stop := Some(RunError)))
  }

  /** Everything that writes a task's state. No code applies Claim or Recover as events. */
  datatype Writer = Apply(event: LoopEvent, stop: Option<StopReason>) | ClaimPending | Reconcile(requeue: bool)

  predicate Issued(w: Writer) { w.Apply? ==> w.event != Claim && w.event != Recover }

  /** None: the policy raises, or the update matches no row. */
  function Write(row: Row, w: Writer): Option<Row> {
    match w
    case Apply(e, stop) =>
      (match ApplyEvent(row, e, stop)
       case Ok(row') => Some(row')
       case Err(_) => None)
    case ClaimPending => ClaimRow(row)
    case Reconcile(requeue) => ReconcileRow(row, requeue)
  }

  /** A run of writers; one that is refused leaves the row alone. */
  function History(row: Row, ws: seq<Writer>): Row {
    if ws == [] then row
    else
      var before := History(row, Front(ws));
      match Write(before, Last(ws))
      case Some(after) => after
      case None => before
  }

  /** How many of the writers matching `select` took effect. */
  function Effective(row: Row, ws: seq<Writer>, select: Writer -> bool): nat {
    if ws == [] then 0
    else
      Effective(row, Front(ws), select) +
      if select(Last(ws)) && Write(History(row, Front(ws)), Last(ws)).Some? then 1 else 0
  }

  // ---- What every writer keeps ----------------------------------------------

  predicate Consistent(row: Row) {
    && row.status == StatusOf(row.state)
    && (row.stop.Some? <==> Terminal(row.state))
    && (row.state == Completed <==> row.stop == Some(GoalAchieved))
    && (row.state == Stopped <==> BoundedStop(row.stop))
    && (row.state == Cancelled <==> row.stop == Some(UserCancelled))
    && (row.state == Failed <==> row.stop == Some(RunError))
  }

  /** One effective write: consistency is kept, the sequence grows by one, nothing leaves a terminal state. */
  lemma WriteKeeps(row: Row, w: Writer)
    requires Consistent(row) && Issued(w) && Write(row, w).Some?
    ensures Consistent(Write(row, w).value)
    ensures Write(row, w).value.sequence == row.sequence + 1
    ensures !Terminal(row.state)
    ensures Write(row, w).value.state == Completed ==> row.state == Verifying && w.Apply? && w.event == VerificationAccepted
  {
    if w.Apply? {
      assert Rule(row.state, w.event).Some?;
    }
  }

  /** The history invariant: the row is consistent and its counters count the writes that took effect. */
  lemma {:induction false} HistoryConsistent(first: nat, ws: seq<Writer>)
    requires forall w :: w in ws ==> Issued(w)
    ensures Consistent(History(Published(first), ws))
    ensures History(Published(first), ws).sequence == Effective(Published(first), ws, w => true)
    ensures History(Published(first), ws).attempt == first + Effective(Published(first), ws, w => w == Reconcile(true))
  {
    if ws != [] {
      assert forall w :: w in Front(ws) ==> w in ws;
      HistoryConsistent(first, Front(ws));
      var before := History(Published(first), Front(ws));
      if Write(before, Last(ws)).Some? {
        WriteKeeps(before, Last(ws));
      }
    }
  }

  /** Once terminal, every later history leaves the row exactly as it is. */
  lemma {:induction false} TerminalAbsorbs(row: Row, ws: seq<Writer>)
    requires Consistent(row) && Terminal(row.state)
    requires forall w :: w in ws ==> Issued(w)
    ensures History(row, ws) == row
  {
    if ws != [] {
      assert forall w :: w in Front(ws) ==> w in ws;
      TerminalAbsorbs(row, Front(ws));
      if Write(row, Last(ws)).Some? {
        WriteKeeps(row, Last(ws));
      }
    }
  }

  /** A claim leaves the queued state; only a requeue or an answer leads back to it. */
  lemma QueuedAgain(row: Row, w: Writer)
    requires Consistent(row) && Issued(w) && Write(row, w).Some?
    ensures w == ClaimPending ==> row.state == Queued && Write(row, w).value.state != Queued
    ensures Write(row, w).value.state == Queued ==> w == Reconcile(true) || (w.Apply? && w.event == UserResponded)
  {
  }

  /** A task is claimed at most once per publication, requeue or answer. */
  lemma {:induction false} ClaimsBounded(first: nat, ws: seq<Writer>)
    requires forall w :: w in ws ==> Issued(w)
    ensures Effective(Published(first), ws, w => w == ClaimPending) +
            (if History(Published(first), ws).state == Queued then 1 else 0)
         <= 1 + Effective(Published(first), ws, w => w == Reconcile(true))
              + Effective(Published(first), ws, (w: Writer) => w.Apply? && w.event == UserResponded)
  {
    if ws != [] {
      var w := Last(ws);
      assert forall w :: w in Front(ws) ==> w in ws;
      ClaimsBounded(first, Front(ws));
      HistoryConsistent(first, Front(ws));
      var before := History(Published(first), Front(ws));
      if Write(before, w).Some? {
        QueuedAgain(before, w);
      }
    }
  }

  /**
   A claim takes effect exactly on a queued row. The update also lists the working
   states, and writes another reason for them; no history reaches that case.
   */
  lemma {:induction false} ClaimOnlyFromQueued(first: nat, ws: seq<Writer>)
    requires forall w :: w in ws ==> Issued(w)
    ensures Write(History(Published(first), ws), ClaimPending).Some? <==> History(Published(first), ws).state == Queued
  {
    HistoryConsistent(first, ws);
  }

  // ---- The object the policy updates ----------------------------------------

  function EventName(e: LoopEvent): string {
    match e
    case Claim => "claim"
    case Recover => "recover"
    case ContractRequired => "contract_required"
    case ContractReady => "contract_ready"
    case RubricRequired => "rubric_required"
    case PreparationCompleted => "preparation_completed"
    case RubricReady => "rubric_ready"
    case ActionSelected => "action_selected"
    case ActionRecorded => "action_recorded"
    case VerificationRequested => "verification_requested"
    case VerificationRejected => "verification_rejected"
    case VerificationAccepted => "verification_accepted"
    case InputRequired => "input_required"
    case ApprovalRequired => "approval_required"
    case UserResponded => "user_responded"
    case LimitReached => "limit_reached"
    case Cancel => "cancel"
    case Fail => "fail"
  }

  function ReasonText(reason: string, e: LoopEvent): string {
    if Strip(reason) != "" then Strip(reason) else EventName(e)
  }

  datatype Transition = Transition(sequence: nat, source: LoopState, target: LoopState, event: LoopEvent, reason: string)

  class TransitionTarget {
    var loopState: StoredState
    var transitionReason: Option<string>
    var transitionSequence: nat
    var status: Status
    var stopReason: Option<StopReason>
    var attempt: nat

    function Value(): Row
      reads this
      requires loopState.Known?
    {
      Row(loopState.state, status, stopReason, transitionSequence, attempt)
    }

    constructor (first: nat)
      ensures loopState.Known? && Value() == Published(first) && transitionReason == None
    {
      loopState, transitionReason, transitionSequence := Known(Queued), None, 0;
      status, stopReason, attempt := PENDING, None, first;
    }

    /** A refresh from the database row. */
    method Load(row: Row)
      modifies this
      ensures loopState.Known? && Value() == row
    {
      loopState, status, stopReason := Known(row.state), row.status, row.stop;
      transitionSequence, attempt := row.sequence, row.attempt;
    }

    /** Raises, changing nothing, exactly when the policy refuses. */
    method Apply(event: LoopEvent, reason: string, stop: Option<StopReason>)
      returns (r: Result<Transition, PolicyError>)
      modifies this
      ensures r.Err? ==> unchanged(this)
      ensures old(loopState).Unknown? ==> r == Err(UnknownState)
      ensures old(loopState).Known? && ApplyEvent(old(Value()), event, stop).Err? ==>
                r == Err(ApplyEvent(old(Value()), event, stop).error)
      ensures old(loopState).Known? && ApplyEvent(old(Value()), event, stop).Ok? ==>
                && loopState.Known?
                && r == Ok(Transition(transitionSequence, old(loopState.state), loopState.state, event, ReasonText(reason, event)))
                && Value() == ApplyEvent(old(Value()), event, stop).value
                && transitionReason == Some(ReasonText(reason, event))
    {
      if loopState.Unknown? { return Err(UnknownState); }
      var source := loopState.state;
      var found := Rule(source, event);
      if found.None? { return Err(NotAllowed(source, event)); }
      if event == LimitReached && !BoundedStop(stop) { return Err(UnboundedStop); }
      var target := found.value;
      var transition := Transition(transitionSequence + 1, source, target, event, ReasonText(reason, event));
      loopState := Known(target);
      transitionReason := Some(transition.reason);
      transitionSequence := transition.sequence;
      SetStatus(target, stop);
      return Ok(transition);
    }

    /** The two columns derived from the new state. */
    method SetStatus(target: LoopState, stop: Option<StopReason>)
      modifies `status, `stopReason
      ensures status == StatusOf(target)
      ensures stopReason == match target
                            case Completed => Some(GoalAchieved)
                            case Stopped => stop
                            case Cancelled => Some(UserCancelled)
                            case Failed => Some(RunError)
                            case _ => None
    {
      status := StatusOf(target);
      match target {
        case Completed => stopReason := Some(GoalAchieved);
        case Stopped => stopReason := stop;
        case Cancelled => stopReason := Some(UserCancelled);
        case Failed => stopReason := Some(RunError);
        case _ => stopReason := None;
      }
    }

    method ClaimPending() returns (claimed: bool)
      requires loopState.Known?
      modifies this
      ensures loopState.Known? && claimed == ClaimRow(old(Value())).Some?
      ensures claimed ==> Value() == ClaimRow(old(Value())).value
      ensures claimed ==> transitionReason == Some(ClaimReason(old(loopState.state)))
      ensures !claimed ==> unchanged(this)
    {
      claimed := status == PENDING && Claimable(loopState.state);
      if claimed {
        transitionReason := Some(ClaimReason(loopState.state));
        status, loopState, transitionSequence, stopReason := RUNNING, Known(Preparing), transitionSequence + 1, None;
      }
    }

    method ReconcileInterrupted(requeue: bool) returns (matched: bool)
      requires loopState.Known?
      modifies this
      ensures loopState.Known? && matched == ReconcileRow(old(Value()), requeue).Some?
      ensures matched ==> Value() == ReconcileRow(old(Value()), requeue).value
      ensures matched ==> transitionReason == Some(ReconcileReason(requeue))
      ensures !matched ==> unchanged(this)
    {
      matched := status == RUNNING;
      if matched {
        transitionSequence := transitionSequence + 1;
        transitionReason := Some(ReconcileReason(requeue));
        if requeue {
          status, loopState, stopReason, attempt := PENDING, Known(Queued), None, attempt + 1;
        } else {
          status, loopState, stopReason := FAILED, Known(Failed), Some(RunError);
        }
      }
    }
  }
}
