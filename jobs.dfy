/**
 * The values a GitHub push job handler works on: the job record taken off
 * the queue, the effects the handler causes (job-log lines, chat messages,
 * stage invocations, the directory it lists) and the way each step ends
 * (a returned value or a thrown error).
 */
module Jobs {

  datatype Option<+T> = None | Some(value: T)

  /**
   * The push payload. A field the record does not carry is `None`; a field
   * that carries the empty string is `Some("")`. JavaScript treats both as
   * falsy.
   */
  datatype Payload = Payload(
    repoName: Option<string>,
    repoOwner: Option<string>,
    branchName: Option<string>,
    upstream: Option<seq<string>>)

  /** A queued job: its title and its payload, which may be missing. */
  datatype Job = Job(title: string, payload: Option<Payload>)

  /** JavaScript truthiness of an optional string field. */
  predicate Truthy(field: Option<string>) {
    field.Some? && field.value != ""
  }

  /** The tag that prefixes a job-log line (the padding is not modelled). */
  datatype Tag = Untagged | SanitizeTag | BuildTag

  /** The two long-running stages, each run under a deadline. */
  datatype Stage = Build | Publish

  /** One observable effect of the handler, in the order it happens. */
  datatype Event =
    | JobLog(tag: Tag, text: string)                                 // a line appended to the job's log
    | SlackMsg(text: string)                                         // a chat notification
    | StageCalled(stage: Stage, deadline: nat, timeoutMessage: string) // a stage started under a deadline
    | FilesListed(dir: string)                                       // the directory whose files are listed

  /** Why a step threw (or, for an async step, rejected). */
  datatype JobError =
    | InvalidJobDef                 // the shared 'job not valid' error
    | MasterBranchesNotSupported    // 'master branches not supported'
    | TimedOut(message: string)     // the deadline fired first
    | Raised(message: string)       // a collaborator threw

  /** How a step ends: it returns a value or throws. */
  datatype Completion<+T> = Returned(value: T) | Threw(error: JobError)

  /** The effects a step caused, in order, and how it ended. */
  datatype Traced<+T> = Traced(trace: seq<Event>, result: Completion<T>)
}
