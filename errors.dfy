/** The error classes of the client, as one datatype: each error is a
    `CopilotError` with a class name and a message. `FileSystemError` is
    not one of the client's classes: it stands for an error of Node's file
    system that the client passes on unchanged. */
module Errors {
  datatype CopilotError =
    | CopilotExecutionError(message: string)
    | CopilotTimeoutError(message: string)
    | SessionNotFoundError(sessionId: string)
    | OutputParseError(message: string, rawOutput: string)
    | ConfigurationError(message: string)
    | FileSystemError(message: string)

  /** The `name` each class sets. */
  function Name(e: CopilotError): string {
    match e
    case CopilotExecutionError(_) => "CopilotExecutionError"
    case CopilotTimeoutError(_) => "CopilotTimeoutError"
    case SessionNotFoundError(_) => "SessionNotFoundError"
    case OutputParseError(_, _) => "OutputParseError"
    case ConfigurationError(_) => "ConfigurationError"
    case FileSystemError(_) => "Error"
  }

  /** The message: as given, except that a missing session is reported with
      its id after a fixed prefix. */
  function Message(e: CopilotError): (m: string)
    ensures e.SessionNotFoundError? ==> |m| > |e.sessionId| && m[|m| - |e.sessionId|..] == e.sessionId
    ensures !e.SessionNotFoundError? ==> m == e.message
  {
    match e
    case SessionNotFoundError(id) => "Session not found: " + id
    case CopilotExecutionError(msg) => msg
    case CopilotTimeoutError(msg) => msg
    case OutputParseError(msg, _) => msg
    case ConfigurationError(msg) => msg
    case FileSystemError(msg) => msg
  }
}
