/** Values shared by every part of the model: optional values, Python
    exceptions as a failure-compatible result, log notices and the outcome
    of one step performed by a collaborator (network, database, file). */
module Base {

  datatype Option<+T> = None | Some(value: T)

  /** Why a ValueError was raised. */
  datatype ValueReason =
    | IntLiteral(text: string)   // int() of a text that is not a decimal integer
    | UnpackCount                // a day range split into more than two parts
    | UnsupportedFormat          // the export format is neither csv nor xlsx
    | UnsupportedServerType      // the server type is neither SFTP nor FTP

  /** The Python exception classes the code tells apart. */
  datatype Exc =
    | ValueError(reason: ValueReason)
    | KeyError(key: string)      // a missing section or option
    | ErrorPerm(reply: string)   // ftplib.error_perm, a 5xx FTP reply
    | IOError(detail: string)    // OSError and its subclasses
    | ScheduleValueError(time: string) // the schedule library refused a daily time
    | OtherError(detail: string) // any other exception class

  /** A value, or the exception that was raised instead. */
  datatype Result<+T> = Ok(value: T) | Raised(exc: Exc) {
    predicate IsFailure() { Raised? }

    function PropagateFailure<U>(): Result<U>
      requires Raised?
    {
      Raised(exc)
    }

    function Extract(): T
      requires Ok?
    {
      value
    }
  }

  /** What a collaborator did when asked to perform one step. */
  datatype Step = Succeeds | Fails(exc: Exc)

  datatype Level = Warning | Error

  /** The warning and error lines the program logs. */
  datatype Event =
    | RemoteDirMissing(path: string)   // the remote directory was refused; a fallback is used
    | SftpTransferFailed(exc: Exc)     // an SFTP transfer error, logged and swallowed
    | UserPathRejected                 // sync_job's report of an ftplib.error_perm
    | ValueProblem(reason: ValueReason)// sync_job's report of a ValueError
    | ProcessFailed(exc: Exc)          // sync_job's report of any other exception
    | ConfigChangeFailed(exc: Exc)     // check_config's report of a failed reconfiguration

  datatype Notice = Notice(level: Level, event: Event)
}
