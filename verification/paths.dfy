/**
 * The four flows and the whole invocation as functions from the inputs,
 * the run context and the oracle's replies to the outcome, followed by
 * what they promise: which calls each flow makes and in what order, what
 * colour and text each call carries, that a flow stops at its first failed
 * call, and that outputs are written only by a fully successful start.
 */
module Paths {
  import opened Wrappers
  import opened ActionIO
  import opened Colors
  import opened Render
  import opened Dispatch
  import opened Trace

  const MessageIdOutput: string := "DISCORD_MESSAGE_ID"
  const ThreadIdOutput: string := "DISCORD_THREAD_ID"

  /** New thread: post the header, open a thread on it, post the status, write both IDs. */
  function StartSpec(inp: Inputs, ctx: Option<RunContext>, rs: seq<Reply>): Outcome
  {
    match StageColor(inp.stage)
    case Err(e) => Outcome([], Some(e))
    case Ok(color) =>
      match HeaderEmbed(ctx, inp.stage, inp.stageStatus, false)
      case Err(e) => Outcome([], Some(e))
      case Ok(header) =>
        var msg := At(rs, 0);
        var post := Call(MessageSend(inp.channel, "", header), msg);
        if msg.Failed? then Outcome([post], Some(RemoteFailed(SendHeader)))
        else
          var thread := At(rs, 1);
          var open := Call(MessageThreadStart(inp.channel, msg.id, ctx.value.threadTitle), thread);
          if thread.Failed? then Outcome([post, open], Some(RemoteFailed(OpenThread)))
          else
            var sent := At(rs, 2);
            var note := Call(MessageSend(thread.id, "", Status(color, inp.stageStatusLong)), sent);
            if sent.Failed? then Outcome([post, open, note], Some(RemoteFailed(SendStatus)))
            else Outcome([post, open, note, SetOutput(MessageIdOutput, msg.id), SetOutput(ThreadIdOutput, thread.id)], None)
  }

  /**
   * The calls shared by the update, error and cancel flows: edit the top
   * message, then post in the thread, stopping at the first failure.
   */
  function EditThenPost(edit: Request, note: Request, rs: seq<Reply>): Outcome
  {
    var edited := At(rs, 0);
    if edited.Failed? then Outcome([Call(edit, edited)], Some(RemoteFailed(EditHeader)))
    else
      var sent := At(rs, 1);
      Outcome([Call(edit, edited), Call(note, sent)], if sent.Failed? then Some(RemoteFailed(SendStatus)) else None)
  }

  /** Existing thread: rewrite the header for the current stage, post the status. */
  function UpdateSpec(inp: Inputs, ctx: Option<RunContext>, rs: seq<Reply>): Outcome
  {
    match StageColor(inp.stage)
    case Err(e) => Outcome([], Some(e))
    case Ok(color) =>
      match HeaderEmbed(ctx, inp.stage, inp.stageStatus, false)
      case Err(e) => Outcome([], Some(e))
      case Ok(header) =>
        EditThenPost(MessageEdit(inp.channel, inp.messageId, header),
                     MessageSend(inp.threadId, "", Status(color, inp.stageStatusLong)), rs)
  }

  /** Stage failed: mark the header failed with the error, post the status and ping the role. */
  function ReportErrorSpec(inp: Inputs, ctx: Option<RunContext>, rs: seq<Reply>): Outcome
  {
    match HeaderEmbed(ctx, inp.stage, inp.stageStatus, true)
    case Err(e) => Outcome([], Some(e))
    case Ok(header) =>
      EditThenPost(MessageEdit(inp.channel, inp.messageId, header.(description := FailMarked(inp.stageError))),
                   MessageSend(inp.threadId, inp.pingRole, Status(RedColor, inp.stageStatusLong)), rs)
  }

  /** Pipeline canceled: turn the header grey with the cancel message, post a grey status. */
  function ReportCanceledSpec(inp: Inputs, ctx: Option<RunContext>, rs: seq<Reply>): Outcome
  {
    match HeaderEmbed(ctx, inp.stage, inp.stageStatus, true)
    case Err(e) => Outcome([], Some(e))
    case Ok(header) =>
      EditThenPost(MessageEdit(inp.channel, inp.messageId, header.(description := inp.canceledMessage, color := GreyColor)),
                   MessageSend(inp.threadId, "", Status(GreyColor, inp.stageStatusLong)), rs)
  }

  function PathSpec(p: Path, inp: Inputs, ctx: Option<RunContext>, rs: seq<Reply>): Outcome
  {
    match p
    case Start => StartSpec(inp, ctx, rs)
    case ReportError => ReportErrorSpec(inp, ctx, rs)
    case ReportCanceled => ReportCanceledSpec(inp, ctx, rs)
    case Update => UpdateSpec(inp, ctx, rs)
  }

  /** One invocation: check the required inputs, then run with a client. */
  function RunSpec(inp: Inputs, ctx: Option<RunContext>, rs: seq<Reply>): Outcome
  {
    match MissingRequired(inp)
    case Some(e) => Outcome([], Some(e))
    case None => ClientSpec(inp, ctx, rs)
  }

  /** Create the client, check the thread IDs, run the one selected flow. */
  function ClientSpec(inp: Inputs, ctx: Option<RunContext>, rs: seq<Reply>): Outcome
  {
    var created := At(rs, 0);
    var session := Call(NewSession(inp.botToken), created);
    if created.Failed? then Outcome([session], Some(SessionFailed))
    else
      match SelectPath(inp)
      case Err(e) => Outcome([session], Some(e))
      case Ok(p) =>
        var o := PathSpec(p, inp, ctx, Drop(rs, 1));
        Outcome([session] + o.events, o.err)
  }

  /** How many remote calls a flow makes when every one succeeds. */
  function PlanLength(p: Path): nat
  {
    if p == Start then 3 else 2
  }

  /** The header a flow that does not fail sends: the stage's colour, no description. */
  function StageHeader(inp: Inputs, c: RunContext): (h: Embed)
    requires ParseStage(inp.stage).Some?
    ensures h.Header? && StageColor(inp.stage) == Ok(h.color)
  {
    Header(c.runUrl, c.embedTitle, StageFields(ParseStage(inp.stage).value, inp.stageStatus), Palette(ParseStage(inp.stage).value), "")
  }

  /** The header's checklist as a failing flow renders it: the running stage's status fail-marked. */
  function FailedFields(inp: Inputs): seq<Field>
    requires ParseStage(inp.stage).Some?
  {
    StageFields(ParseStage(inp.stage).value, FailMarked(inp.stageStatus))
  }

  lemma StartRequests(inp: Inputs, ctx: Option<RunContext>, rs: seq<Reply>)
    requires ctx.Some? && ParseStage(inp.stage).Some?
    ensures RanPlan(StartSpec(inp, ctx, rs),
      [MessageSend(inp.channel, "", StageHeader(inp, ctx.value)),
       MessageThreadStart(inp.channel, IdOf(At(rs, 0)), ctx.value.threadTitle),
       MessageSend(IdOf(At(rs, 1)), "", Status(StageColor(inp.stage).value, inp.stageStatusLong))],
      [SendHeader, OpenThread, SendStatus], rs,
      [SetOutput(MessageIdOutput, IdOf(At(rs, 0))), SetOutput(ThreadIdOutput, IdOf(At(rs, 1)))])
  {
  }

  lemma UpdateRequests(inp: Inputs, ctx: Option<RunContext>, rs: seq<Reply>)
    requires ctx.Some? && ParseStage(inp.stage).Some?
    ensures RanPlan(UpdateSpec(inp, ctx, rs),
      [MessageEdit(inp.channel, inp.messageId, StageHeader(inp, ctx.value)),
       MessageSend(inp.threadId, "", Status(StageColor(inp.stage).value, inp.stageStatusLong))],
      [EditHeader, SendStatus], rs, [])
  {
  }

  lemma ReportErrorRequests(inp: Inputs, ctx: Option<RunContext>, rs: seq<Reply>)
    requires ctx.Some? && ParseStage(inp.stage).Some?
    ensures RanPlan(ReportErrorSpec(inp, ctx, rs),
      [MessageEdit(inp.channel, inp.messageId,
         Header(ctx.value.runUrl, ctx.value.embedTitle, FailedFields(inp), RedColor, FailMarked(inp.stageError))),
       MessageSend(inp.threadId, inp.pingRole, Status(RedColor, inp.stageStatusLong))],
      [EditHeader, SendStatus], rs, [])
  {
  }

  lemma ReportCanceledRequests(inp: Inputs, ctx: Option<RunContext>, rs: seq<Reply>)
    requires ctx.Some? && ParseStage(inp.stage).Some?
    ensures RanPlan(ReportCanceledSpec(inp, ctx, rs),
      [MessageEdit(inp.channel, inp.messageId,
         Header(ctx.value.runUrl, ctx.value.embedTitle, FailedFields(inp), GreyColor, inp.canceledMessage)),
       MessageSend(inp.threadId, "", Status(GreyColor, inp.stageStatusLong))],
      [EditHeader, SendStatus], rs, [])
  {
  }

  /**
   * A header that cannot be rendered ends every flow before its first call.
   * The colour lookup runs first in a start or an update, the header first
   * in an error or cancel report, and the run context is read before the
   * header looks at the stage.
   */
  lemma RenderFailureMakesNoCall(p: Path, inp: Inputs, ctx: Option<RunContext>, rs: seq<Reply>)
    requires ctx.None? || ParseStage(inp.stage).None?
    ensures PathSpec(p, inp, ctx, rs).events == []
    ensures PathSpec(p, inp, ctx, rs).err == Some(
      if (p == Start || p == Update) && ParseStage(inp.stage).None? then UnknownColorStage(inp.stage)
      else if ctx.None? then ContextUnavailable
      else UnknownFieldsStage(inp.stage))
  {
  }

  /** Every flow obeys the fail-fast discipline, whatever the inputs and replies. */
  lemma PathFailFast(p: Path, inp: Inputs, ctx: Option<RunContext>, rs: seq<Reply>)
    ensures FailFast(PathSpec(p, inp, ctx, rs), rs)
  {
    if ctx.None? || ParseStage(inp.stage).None? {
      RenderFailureMakesNoCall(p, inp, ctx, rs);
    } else {
      match p
      case Start =>
        StartRequests(inp, ctx, rs);
        var tail := [SetOutput(MessageIdOutput, IdOf(At(rs, 0))), SetOutput(ThreadIdOutput, IdOf(At(rs, 1)))];
        RanPlanFailFast(StartSpec(inp, ctx, rs),
          [MessageSend(inp.channel, "", StageHeader(inp, ctx.value)),
           MessageThreadStart(inp.channel, IdOf(At(rs, 0)), ctx.value.threadTitle),
           MessageSend(IdOf(At(rs, 1)), "", Status(StageColor(inp.stage).value, inp.stageStatusLong))],
          [SendHeader, OpenThread, SendStatus], rs, tail);
      case Update =>
        UpdateRequests(inp, ctx, rs);
      case ReportError =>
        ReportErrorRequests(inp, ctx, rs);
      case ReportCanceled =>
        ReportCanceledRequests(inp, ctx, rs);
    }
  }

  /** A flow succeeds exactly when it renders and every one of its calls gets a reply. */
  lemma PathSucceeds(p: Path, inp: Inputs, ctx: Option<RunContext>, rs: seq<Reply>)
    ensures PathSpec(p, inp, ctx, rs).err.None? <==>
      ctx.Some? && ParseStage(inp.stage).Some? && DeliveredUpTo(rs, PlanLength(p))
  {
    if ctx.None? || ParseStage(inp.stage).None? {
      RenderFailureMakesNoCall(p, inp, ctx, rs);
    } else {
      match p
      case Start => StartRequests(inp, ctx, rs);
      case Update => UpdateRequests(inp, ctx, rs);
      case ReportError => ReportErrorRequests(inp, ctx, rs);
      case ReportCanceled => ReportCanceledRequests(inp, ctx, rs);
    }
  }

  /** An empty bot token, channel or stage ends the run before the client is created. */
  lemma MissingInputCreatesNoClient(inp: Inputs, ctx: Option<RunContext>, rs: seq<Reply>)
    requires inp.botToken == "" || inp.channel == "" || inp.stage == ""
    ensures RunSpec(inp, ctx, rs).events == []
    ensures RunSpec(inp, ctx, rs).err.Some? && RunSpec(inp, ctx, rs).err.value.MissingInput?
  {
  }

  /** A thread ID without a message ID, or the reverse, ends the run before any remote call. */
  lemma InconsistentIdsMakeNoRemoteCall(inp: Inputs, ctx: Option<RunContext>, rs: seq<Reply>)
    requires (inp.threadId == "") != (inp.messageId == "")
    ensures forall i :: 0 <= i < |RunSpec(inp, ctx, rs).events| ==>
      RunSpec(inp, ctx, rs).events[i].Call? && !IsRemote(RunSpec(inp, ctx, rs).events[i].request)
    ensures RunSpec(inp, ctx, rs).err.Some?
  {
  }

  /**
   * Once the client exists and the IDs are consistent, the run is the selected
   * flow and nothing else, fed with the replies after the client's.
   */
  lemma RunIsSelectedPath(inp: Inputs, ctx: Option<RunContext>, rs: seq<Reply>)
    requires At(rs, 0).Delivered? && SelectPath(inp).Ok?
    ensures ClientSpec(inp, ctx, rs).events ==
      [Call(NewSession(inp.botToken), At(rs, 0))] + PathSpec(SelectPath(inp).value, inp, ctx, Drop(rs, 1)).events
    ensures ClientSpec(inp, ctx, rs).err == PathSpec(SelectPath(inp).value, inp, ctx, Drop(rs, 1)).err
    ensures MissingRequired(inp).None? ==> RunSpec(inp, ctx, rs) == ClientSpec(inp, ctx, rs)
  {
  }

  /** The whole run is fail-fast: each call gets the next reply and the first failure ends it. */
  lemma RunFailFast(inp: Inputs, ctx: Option<RunContext>, rs: seq<Reply>)
    ensures FailFast(RunSpec(inp, ctx, rs), rs)
  {
    var o := RunSpec(inp, ctx, rs);
    if MissingRequired(inp).None? && At(rs, 0).Delivered? && SelectPath(inp).Ok? {
      var p := SelectPath(inp).value;
      var q := PathSpec(p, inp, ctx, Drop(rs, 1));
      PathFailFast(p, inp, ctx, Drop(rs, 1));
      assert o.events == [Call(NewSession(inp.botToken), At(rs, 0))] + q.events;
      forall i | 1 <= i < |o.events| && o.events[i].Call?
        ensures o.events[i].reply == At(rs, i)
      {
        assert o.events[i] == q.events[i - 1];
        AtDrop(rs, 1, i - 1);
      }
    }
  }

  /** The run succeeds exactly when validation passes, the client is created and the flow succeeds. */
  lemma RunSucceeds(inp: Inputs, ctx: Option<RunContext>, rs: seq<Reply>)
    ensures RunSpec(inp, ctx, rs).err.None? <==>
      inp.botToken != "" && inp.channel != "" && inp.stage != "" &&
      (inp.threadId == "") == (inp.messageId == "") &&
      ctx.Some? && ParseStage(inp.stage).Some? &&
      DeliveredUpTo(rs, 1 + PlanLength(SelectPath(inp).value))
  {
    if MissingRequired(inp).None? && At(rs, 0).Delivered? && SelectPath(inp).Ok? {
      var p := SelectPath(inp).value;
      PathSucceeds(p, inp, ctx, Drop(rs, 1));
      if DeliveredUpTo(Drop(rs, 1), PlanLength(p)) {
        forall i | 0 <= i < 1 + PlanLength(p)
          ensures At(rs, i).Delivered?
        {
          if i > 0 {
            AtDrop(rs, 1, i - 1);
          }
        }
      }
      if DeliveredUpTo(rs, 1 + PlanLength(p)) {
        forall i | 0 <= i < PlanLength(p)
          ensures At(Drop(rs, 1), i).Delivered?
        {
          AtDrop(rs, 1, i);
        }
      }
    }
  }

  /** A successful start writes the top message's ID and then the thread's; a failed one writes nothing. */
  lemma StartOutputs(inp: Inputs, ctx: Option<RunContext>, rs: seq<Reply>)
    ensures Outputs(StartSpec(inp, ctx, rs).events) ==
      if StartSpec(inp, ctx, rs).err.None?
      then [(MessageIdOutput, IdOf(At(rs, 0))), (ThreadIdOutput, IdOf(At(rs, 1)))]
      else []
  {
    var q := StartSpec(inp, ctx, rs);
    if q.err.None? {
      var calls := q.events[..3];
      var tail := [SetOutput(MessageIdOutput, IdOf(At(rs, 0))), SetOutput(ThreadIdOutput, IdOf(At(rs, 1)))];
      assert q.events == calls + tail;
      NoOutputs(calls);
      OutputsAppend(calls, tail);
      assert tail[1..][1..] == [];
      assert Outputs(tail) == [(MessageIdOutput, IdOf(At(rs, 0)))] + Outputs(tail[1..]);
    } else {
      NoOutputs(q.events);
    }
  }

  /** A flow writes outputs only if it is a start that succeeded, and then writes both IDs. */
  lemma PathOutputs(p: Path, inp: Inputs, ctx: Option<RunContext>, rs: seq<Reply>)
    ensures Outputs(PathSpec(p, inp, ctx, rs).events) ==
      if p == Start && PathSpec(p, inp, ctx, rs).err.None?
      then [(MessageIdOutput, IdOf(At(rs, 0))), (ThreadIdOutput, IdOf(At(rs, 1)))]
      else []
  {
    if p == Start {
      StartOutputs(inp, ctx, rs);
    } else {
      NoOutputs(PathSpec(p, inp, ctx, rs).events);
    }
  }

  /**
   * Outputs are written only by a start whose three calls all succeeded, and
   * then they are the top message's ID and the thread's ID.
   */
  lemma OutputsOnlyOnStartSuccess(inp: Inputs, ctx: Option<RunContext>, rs: seq<Reply>)
    ensures Outputs(RunSpec(inp, ctx, rs).events) != [] <==>
      SelectPath(inp) == Ok(Start) && RunSpec(inp, ctx, rs).err.None?
    ensures SelectPath(inp) == Ok(Start) && RunSpec(inp, ctx, rs).err.None? ==>
      Outputs(RunSpec(inp, ctx, rs).events) == [(MessageIdOutput, IdOf(At(rs, 1))), (ThreadIdOutput, IdOf(At(rs, 2)))]
  {
    var o := RunSpec(inp, ctx, rs);
    if MissingRequired(inp).None? && At(rs, 0).Delivered? && SelectPath(inp).Ok? {
      var p := SelectPath(inp).value;
      var q := PathSpec(p, inp, ctx, Drop(rs, 1));
      var session := Call(NewSession(inp.botToken), At(rs, 0));
      assert o.events == [session] + q.events;
      OutputsAppend([session], q.events);
      NoOutputs([session]);
      PathOutputs(p, inp, ctx, Drop(rs, 1));
    } else {
      NoOutputs(o.events);
    }
  }
}
