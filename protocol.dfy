/**
 * The messages exchanged over the execution socket (`/ws/execute`), after JSON
 * decoding. A field that JSON leaves out, or sets to null, is `None`.
 */
module Protocol {
  import opened Wrappers

  /** A string field of a request as JSON leaves it: left out, `null`, or a string. */
  datatype Field = Absent | Null | Str(s: string)

  /**
   * What the client sends. `Stop` carries the id the client stopped, or `null`. `Other` is
   * any other `type`; `Malformed` is text that does not parse.
   */
  datatype Request =
    | Execute(language: Field, code: Field, executionId: Field)
    | Input(input: Field)
    | Stop(stoppedId: Option<string>)
    | Other(kind: Field)
    | Malformed(reason: string)

  /** What the server sends. */
  datatype ServerMsg =
    | Status(status: string, message: string, executionId: string)
    | Output(data: string, executionId: string)
    | InputRequired(message: string, executionId: string)
    | Error(error: Option<string>, errorData: Option<string>, errorExecutionId: Option<string>)
    | Exit(exitCode: int, message: string, exitExecutionId: Option<string>)
    | InputSent(message: string)
    | Stopped(message: string)

  /** The execution a message is about, if it carries one. */
  function Tag(m: ServerMsg): Option<string>
  {
    match m
    case Status(_, _, id) => Some(id)
    case Output(_, id) => Some(id)
    case InputRequired(_, id) => Some(id)
    case Error(_, _, id) => id
    case Exit(_, _, id) => id
    case InputSent(_) => None
    case Stopped(_) => None
  }

  /** JavaScript falsiness of a message field, where `None` is a field left out or `null`: missing or empty. */
  predicate Falsy(field: Option<string>)
  {
    field.None? || field.value == ""
  }

  /** JavaScript falsiness of a request field: left out, `null` or empty. */
  predicate FalsyField(field: Field)
  {
    !field.Str? || field.s == ""
  }

  /** A request field interpolated into a template literal: `undefined`, `null`, or the string itself. */
  function Text(field: Field): (t: string)
    ensures field.Absent? ==> t == "undefined"
    ensures field.Null? ==> t == "null"
    ensures field.Str? ==> t == field.s
  {
    match field
    case Absent => "undefined"
    case Null => "null"
    case Str(s) => s
  }

  const StartingMessage: string := "Starting execution..."
  const RunningMessage: string := "Execution started. You can send input now."
  const ReadyMessage: string := "Program is ready to accept input"
  const MayWaitMessage: string := "Program may be waiting for input"
  const CompletedMessage: string := "Execution completed"
  const FailedMessage: string := "Execution failed"
  const RequiredMessage: string := "Language and code are required"
  const NoExecutionMessage: string := "No active execution to send input to"
  const InputSentMessage: string := "Input sent successfully"
  const StoppedMessage: string := "Execution stopped by user"

  /** The execution id `execute` adopts: the client's when it is truthy, else a generated one. */
  function AdoptedId(clientId: Field, generated: string): (id: string)
    requires generated != ""
    ensures id != ""
    ensures !FalsyField(clientId) ==> id == clientId.s
    ensures FalsyField(clientId) ==> id == generated
  {
    if FalsyField(clientId) then generated else clientId.s
  }
}
