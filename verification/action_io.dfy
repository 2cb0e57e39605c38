/**
 * What one invocation of the action receives and how it can fail.
 * The GitHub Actions input API becomes an immutable record; the run
 * context (server URL, repository, ref name, run ID) only ever reaches the
 * chat message as display text, so it is kept as three opaque strings.
 */
module ActionIO {

  /** The named string inputs of the action; an unset input is "". */
  datatype Inputs = Inputs(
    botToken: string,         // DISCORD_BOT_TOKEN
    channel: string,          // DISCORD_CHANNEL
    stage: string,            // STAGE
    threadId: string,         // DISCORD_THREAD_ID
    messageId: string,        // DISCORD_THREAD_MESSAGE_ID
    stageError: string,       // STAGE_ERROR
    canceledMessage: string,  // CANCELED_MESSAGE
    stageStatus: string,      // STAGE_STATUS
    stageStatusLong: string,  // STAGE_STATUS_LONG
    pingRole: string          // PING_ROLE
  )

  /** The display strings derived from the CI run context. */
  datatype RunContext = RunContext(runUrl: string, embedTitle: string, threadTitle: string)

  /** The remote call that failed. */
  datatype Step = SendHeader | OpenThread | SendStatus | EditHeader

  /** Every way an invocation can end in a fatal error. */
  datatype Error =
    | MissingInput(name: string)
    | SessionFailed
    | InconsistentThreadIds
    | UnknownColorStage(stage: string)
    | UnknownFieldsStage(stage: string)
    | ContextUnavailable
    | RemoteFailed(step: Step)
}
