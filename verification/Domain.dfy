/** Values shared by the execution kernel: JSON data, event types, events and commands. */
module Domain {

  datatype Option<+T> = None | Some(value: T)

  datatype Result<+T> = Ok(value: T) | Err(code: ErrorCode)

  /** The failures raised by the modelled operations. `InvalidTransition` is the `ValueError`
      of a refused run transition. */
  datatype ErrorCode =
    | ThreadBusy
    | RunNotFound
    | ResourceNotFound
    | InvalidExecutionInput
    | QueueClosed
    | StreamCursorInvalid
    | InvalidTransition

  /** `Literal` is a number or a boolean, in the text form the source prints. */
  datatype Json =
    | Null
    | Literal(text: string)
    | Quoted(text: string)
    | Array(items: seq<Json>)
    | Object(fields: map<string, Json>)

  /** Event types. The source accepts enumeration members and plain strings; `Text` is a type
      given as a plain string, or a member that no modelled code mentions. */
  datatype EventType =
    | RunQueued | RunStarted | RunCompleted | RunCancelled | RunFailed | RunTimeout | RunInterrupted
    | StateValues | StateUpdates | MessageDelta | Custom | CheckpointCreated
    | TaskStarted | TaskCompleted | ToolStarted | ToolCompleted | AgentStarted | AgentCompleted
    | InterruptCreated
    | Text(name: string)

  const FLUSHING_NAMES: set<string> := {"run.completed", "run.cancelled", "run.failed", "run.timeout"}
  const TERMINAL_NAMES: set<string> := FLUSHING_NAMES + {"run.interrupted"}

  /** Membership in the set of four types, by string value: a plain string equals a member. */
  predicate IsFlushing(t: EventType) {
    t.RunCompleted? || t.RunCancelled? || t.RunFailed? || t.RunTimeout? || (t.Text? && t.name in FLUSHING_NAMES)
  }

  /** Membership in the set of five terminal types, by string value. */
  predicate IsTerminal(t: EventType) {
    t.RunCompleted? || t.RunCancelled? || t.RunFailed? || t.RunTimeout? || t.RunInterrupted?
    || (t.Text? && t.name in TERMINAL_NAMES)
  }

  datatype Identity = Identity(runId: string, threadId: Option<string>)

  datatype Draft = Draft(identity: Identity, eventType: EventType, data: Json)

  datatype Event = Event(
    eventId: string, sequence: int, timestamp: int, identity: Identity, eventType: EventType, data: Json)

  function Stamp(draft: Draft, sequence: int, eventId: string, now: int): Event {
    Event(eventId, sequence, now, draft.identity, draft.eventType, draft.data)
  }

  datatype Priority = Batch | Normal | Interactive

  function PriorityValue(p: Priority): int {
    match p
    case Batch => 10
    case Normal => 50
    case Interactive => 100
  }

  /** Interactive before normal before batch. */
  predicate MoreUrgent(p: Priority, q: Priority) {
    (p == Interactive && q != Interactive) || (p == Normal && q == Batch)
  }

  datatype Command = Command(commandId: string, identity: Identity, priority: Priority, createdAt: int)

  datatype Receipt = Receipt(command: Command, leaseId: string, deliveryCount: nat)
}
