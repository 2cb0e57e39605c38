/**
 * Input validation and the choice of the one flow an invocation runs,
 * decided only by which optional inputs are empty.
 */
module Dispatch {
  import opened Wrappers
  import opened ActionIO

  datatype Path = Start | ReportError | ReportCanceled | Update

  /** The first required input that is empty, checked in the order token, channel, stage. */
  function MissingRequired(inp: Inputs): (r: Option<Error>)
    ensures r.None? <==> inp.botToken != "" && inp.channel != "" && inp.stage != ""
    ensures inp.botToken == "" ==> r == Some(MissingInput("DISCORD_BOT_TOKEN"))
    ensures inp.botToken != "" && inp.channel == "" ==> r == Some(MissingInput("DISCORD_CHANNEL"))
    ensures inp.botToken != "" && inp.channel != "" && inp.stage == "" ==> r == Some(MissingInput("STAGE"))
  {
    if inp.botToken == "" then Some(MissingInput("DISCORD_BOT_TOKEN"))
    else if inp.channel == "" then Some(MissingInput("DISCORD_CHANNEL"))
    else if inp.stage == "" then Some(MissingInput("STAGE"))
    else None
  }

  /**
   * A thread ID without a message ID, or the reverse, is refused. Otherwise
   * no IDs means a new thread; with both, an error report beats a
   * cancellation, which beats a plain update.
   */
  function SelectPath(inp: Inputs): (r: Result<Path, Error>)
    ensures r.Err? <==> (inp.threadId == "") != (inp.messageId == "")
    ensures r.Err? ==> r.error == InconsistentThreadIds
    ensures r == Ok(Start) <==> inp.threadId == "" && inp.messageId == ""
    ensures r == Ok(ReportError) <==>
      inp.threadId != "" && inp.messageId != "" && inp.stageError != ""
    ensures r == Ok(ReportCanceled) <==>
      inp.threadId != "" && inp.messageId != "" && inp.stageError == "" && inp.canceledMessage != ""
    ensures r == Ok(Update) <==>
      inp.threadId != "" && inp.messageId != "" && inp.stageError == "" && inp.canceledMessage == ""
  {
    if (inp.threadId == "") != (inp.messageId == "") then Err(InconsistentThreadIds)
    else if inp.threadId == "" || inp.messageId == "" then Ok(Start)
    else if inp.stageError != "" then Ok(ReportError)
    else if inp.canceledMessage != "" then Ok(ReportCanceled)
    else Ok(Update)
  }
}
