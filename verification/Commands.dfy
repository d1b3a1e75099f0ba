/** The durable Command and its guarded status machine (domain/commands.py). */
module Commands {
  import opened Prelude

  datatype CommandStatus =
    | Received | Validated | Processing | WaitingExecution | WaitingIntervention | Succeeded
    | Rejected | Expired | FailedRetryable | FailedFinal | Cancelled

  predicate Terminal(s: CommandStatus) {
    s.Succeeded? || s.Rejected? || s.Expired? || s.FailedFinal? || s.Cancelled?
  }

  /** The fixed transition table. */
  predicate ValidTransition(source: CommandStatus, target: CommandStatus) {
    match source
    case Received => target.Validated? || target.Rejected? || target.Expired?
    case Validated =>
      target.Processing? || target.WaitingExecution? || target.WaitingIntervention? || target.Rejected?
      || target.Expired?
    case Processing =>
      target.Succeeded? || target.FailedRetryable? || target.FailedFinal? || target.WaitingExecution?
      || target.WaitingIntervention? || target.Expired?
    case WaitingExecution =>
      target.WaitingIntervention? || target.Processing? || target.Succeeded? || target.FailedFinal?
      || target.Cancelled? || target.Expired?
    case WaitingIntervention => target.WaitingExecution? || target.FailedFinal? || target.Expired?
    case FailedRetryable =>
      target.Processing? || target.WaitingExecution? || target.WaitingIntervention? || target.Expired?
      || target.FailedFinal?
    case _ => false
  }

  /** The part of a Command that never changes after it is received. */
  datatype CommandSpec = CommandSpec(account: nat, commandType: string, priority: int, deadline: Option<Time>)

  datatype CommandRow = CommandRow(
    spec: CommandSpec,
    status: CommandStatus,
    nextRetryAt: Option<Time>,
    validatedAt: Option<Time>,
    startedAt: Option<Time>,
    completedAt: Option<Time>,
    result: Option<Document>,
    error: Option<Code>)

  function ReceivedCommand(spec: CommandSpec): CommandRow {
    CommandRow(spec, CommandStatus.Received, None, None, None, None, None, None)
  }

  datatype TransitionError = InvalidTransition | DeadlinePassed | RetryTimeMissing | RetryAfterDeadline

  /** One `transition` call as a function of the row. */
  function Transitioned(c: CommandRow, target: CommandStatus, at: Time, error: Option<Code>,
                        result: Option<Document>, nextRetryAt: Option<Time>)
    : Result<CommandRow, TransitionError>
  {
    if !ValidTransition(c.status, target) then Failure(InvalidTransition)
    else if target.Processing? && c.spec.deadline.Some? && at >= c.spec.deadline.value then Failure(DeadlinePassed)
    else if target.FailedRetryable? && (nextRetryAt.None? || nextRetryAt.value <= at) then Failure(RetryTimeMissing)
    else if target.FailedRetryable? && c.spec.deadline.Some? && nextRetryAt.value >= c.spec.deadline.value then
      Failure(RetryAfterDeadline)
    else
      Success(c.(
              status := target,
              error := error,
              nextRetryAt := if target.Processing? then None else nextRetryAt,
              validatedAt := if target.Validated? then Some(at) else c.validatedAt,
              startedAt := if target.Processing? then Some(at) else c.startedAt,
              completedAt := if Terminal(target) then Some(at) else c.completedAt,
              result := if target.Succeeded? then (if result.Some? then result else Some(EMPTY_DOCUMENT))
                        else c.result))
  }

  /** The statuses a Command can come from, target by target. */
  function Sources(target: CommandStatus): set<CommandStatus> {
    match target
    case Received => {}
    case Validated => {CommandStatus.Received}
    case Processing => {CommandStatus.Validated, CommandStatus.WaitingExecution, CommandStatus.FailedRetryable}
    case WaitingExecution =>
      {CommandStatus.Validated, CommandStatus.Processing, CommandStatus.WaitingIntervention, CommandStatus.FailedRetryable}
    case WaitingIntervention =>
      {CommandStatus.Validated, CommandStatus.Processing, CommandStatus.WaitingExecution, CommandStatus.FailedRetryable}
    case Succeeded => {CommandStatus.Processing, CommandStatus.WaitingExecution}
    case Rejected => {CommandStatus.Received, CommandStatus.Validated}
    case Expired => {CommandStatus.Received, CommandStatus.Validated, CommandStatus.Processing, CommandStatus.WaitingExecution,
                     CommandStatus.WaitingIntervention, CommandStatus.FailedRetryable}
    case FailedRetryable => {CommandStatus.Processing}
    case FailedFinal => {CommandStatus.Processing, CommandStatus.WaitingExecution, CommandStatus.WaitingIntervention,
                         CommandStatus.FailedRetryable}
    case Cancelled => {CommandStatus.WaitingExecution}
  }

  /** In time to be processed, and a retry strictly between now and the deadline. */
  predicate TimesFit(c: CommandRow, target: CommandStatus, at: Time, nextRetryAt: Option<Time>) {
    && (target.Processing? && c.spec.deadline.Some? ==> at < c.spec.deadline.value)
    && (target.FailedRetryable? ==>
          nextRetryAt.Some? && at < nextRetryAt.value && (c.spec.deadline.Some? ==> nextRetryAt.value < c.spec.deadline.value))
  }

  /** A move is accepted exactly along the table and in time, and this is every field of the moved row. */
  lemma TransitionMeans(c: CommandRow, target: CommandStatus, at: Time, error: Option<Code>, result: Option<Document>,
                        nextRetryAt: Option<Time>)
    ensures var moved := Transitioned(c, target, at, error, result, nextRetryAt);
            && (moved.Success? <==> c.status in Sources(target) && TimesFit(c, target, at, nextRetryAt))
            && (moved.Success? ==>
                  && moved.value.spec == c.spec && moved.value.status == target && moved.value.error == error
                  && moved.value.nextRetryAt == (if target.Processing? then None else nextRetryAt)
                  && (if target.Validated? then moved.value.validatedAt == Some(at) else moved.value.validatedAt == c.validatedAt)
                  && (if target.Processing? then moved.value.startedAt == Some(at) else moved.value.startedAt == c.startedAt)
                  && (if target in {CommandStatus.Succeeded, CommandStatus.Rejected, CommandStatus.Expired,
                                    CommandStatus.FailedFinal, CommandStatus.Cancelled}
                      then moved.value.completedAt == Some(at) else moved.value.completedAt == c.completedAt)
                  && (if target.Succeeded? then moved.value.result == Some(if result.Some? then result.value else EMPTY_DOCUMENT)
                      else moved.value.result == c.result))
  {
  }

  /** What every row reached from `ReceivedCommand` by transitions satisfies. */
  predicate CommandOk(c: CommandRow) {
    && (c.completedAt.Some? <==> Terminal(c.status))
    && (c.result.Some? <==> c.status.Succeeded?)
    && (c.status.FailedRetryable? ==>
          c.nextRetryAt.Some? && (c.spec.deadline.Some? ==> c.nextRetryAt.value < c.spec.deadline.value))
  }

  datatype Move = Move(target: CommandStatus, at: Time, error: Option<Code>, result: Option<Document>,
                       nextRetryAt: Option<Time>)

  /** A history of attempted moves; a refused move leaves the row alone. */
  function AfterMoves(c: CommandRow, moves: seq<Move>): CommandRow
    decreases |moves|
  {
    if moves == [] then c
    else
      var m := moves[0];
      var r := Transitioned(c, m.target, m.at, m.error, m.result, m.nextRetryAt);
      AfterMoves(if r.Success? then r.value else c, moves[1..])
  }

  /**
   * Over every history of moves: a terminal Command is frozen for good, completion time and terminal status
   * appear together, only success stores a result, and a retry time never reaches the deadline.
   */
  lemma {:induction false} CommandHistories(c: CommandRow, moves: seq<Move>)
    requires CommandOk(c)
    ensures CommandOk(AfterMoves(c, moves))
    ensures AfterMoves(c, moves).spec == c.spec
    ensures Terminal(c.status) ==> AfterMoves(c, moves) == c
    decreases |moves|
  {
    if moves == [] {
    } else {
      var m := moves[0];
      var r := Transitioned(c, m.target, m.at, m.error, m.result, m.nextRetryAt);
      CommandHistories(if r.Success? then r.value else c, moves[1..]);
    }
  }

  /** The mutable Command object. */
  class Command {
    const spec: CommandSpec
    var status: CommandStatus
    var nextRetryAt: Option<Time>
    var validatedAt: Option<Time>
    var startedAt: Option<Time>
    var completedAt: Option<Time>
    var result: Option<Document>
    var error: Option<Code>

    function Row(): CommandRow
      reads this
    {
      CommandRow(spec, status, nextRetryAt, validatedAt, startedAt, completedAt, result, error)
    }

    constructor Load(row: CommandRow)
      ensures Row() == row
    {
      spec := row.spec;
      status := row.status;
      nextRetryAt := row.nextRetryAt;
      validatedAt := row.validatedAt;
      startedAt := row.startedAt;
      completedAt := row.completedAt;
      result := row.result;
      error := row.error;
    }

    /** Refuses without touching the object, or moves it exactly as `Transitioned` says. */
    method Transition(target: CommandStatus, at: Time, newError: Option<Code>, newResult: Option<Document>,
                      retryAt: Option<Time>)
      returns (refused: Option<TransitionError>)
      modifies this
      ensures match Transitioned(old(Row()), target, at, newError, newResult, retryAt)
              case Success(row) => refused == None && Row() == row
              case Failure(e) => refused == Some(e) && Row() == old(Row())
    {
      if !ValidTransition(status, target) {
        return Some(InvalidTransition);
      }
      if target.Processing? && spec.deadline.Some? && at >= spec.deadline.value {
        return Some(DeadlinePassed);
      }
      if target.FailedRetryable? {
        if retryAt.None? || retryAt.value <= at {
          return Some(RetryTimeMissing);
        }
        if spec.deadline.Some? && retryAt.value >= spec.deadline.value {
          return Some(RetryAfterDeadline);
        }
      }
      status := target;
      error := newError;
      nextRetryAt := retryAt;
      if target.Validated? {
        validatedAt := Some(at);
      } else if target.Processing? {
        startedAt := Some(at);
        nextRetryAt := None;
      } else if Terminal(target) {
        completedAt := Some(at);
      }
      if target.Succeeded? {
        result := if newResult.Some? then newResult else Some(EMPTY_DOCUMENT);
      }
      refused := None;
    }
  }
}
