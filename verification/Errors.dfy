/** The error values of the engine and the log. */
module Errors {
  datatype Error =
    | QueueNotFound
    | MessageNotFound
    | NotLeased
    | WrongReceipt
    | BadName
    | SelfDeadLetter
    | SelfRedrive
    | BadDelay
    | BadVisibility
    | BadConfig
    | BadBody
    | InvalidRecord
    | CorruptRecord
    | AppendFailed
    | IoFailed
}
