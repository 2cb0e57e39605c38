/**
 * The action as it runs: one object records every call into the chat
 * library and every output written, and the flows are methods that make
 * those calls one at a time, returning at the first failure.
 */
module Runner {
  import opened Wrappers
  import opened ActionIO
  import opened Colors
  import opened Render
  import opened Dispatch
  import opened Trace
  import opened Paths

  class Action {
    /** Everything the invocation did so far, in order. */
    var trace: seq<Event>
    /** The replies the chat library has yet to give. */
    var pending: seq<Reply>
    /** All replies the chat library gives during this invocation. */
    ghost const script: seq<Reply>

    /** Each call used up exactly one reply, in order. */
    ghost predicate Valid()
      reads this
    {
      pending == Drop(script, Calls(trace))
    }

    constructor (replies: seq<Reply>)
      ensures Valid()
      ensures trace == [] && pending == replies && script == replies
    {
      trace := [];
      pending := replies;
      script := replies;
    }

    /** One call into the chat library, answered by the next reply. */
    method Invoke(req: Request) returns (reply: Reply)
      requires Valid()
      modifies this
      ensures Valid()
      ensures reply == At(old(pending), 0)
      ensures trace == old(trace) + [Call(req, reply)]
      ensures pending == Drop(old(pending), 1)
    {
      reply := if pending == [] then Failed else pending[0];
      pending := if pending == [] then [] else pending[1..];
      CallsAppend(trace, [Call(req, reply)]);
      DropDrop(script, Calls(trace), 1);
      trace := trace + [Call(req, reply)];
    }

    /** Writes one action output. */
    method WriteOutput(name: string, value: string)
      requires Valid()
      modifies this
      ensures Valid()
      ensures trace == old(trace) + [SetOutput(name, value)]
      ensures pending == old(pending)
    {
      CallsAppend(trace, [SetOutput(name, value)]);
      trace := trace + [SetOutput(name, value)];
    }

    method StartThread(inp: Inputs, ctx: Option<RunContext>) returns (err: Option<Error>)
      requires Valid()
      modifies this
      ensures Valid()
      ensures trace == old(trace) + StartSpec(inp, ctx, old(pending)).events
      ensures err == StartSpec(inp, ctx, old(pending)).err
    {
      var color := StageColor(inp.stage);
      if color.Err? {
        return Some(color.error);
      }
      var header := HeaderEmbed(ctx, inp.stage, inp.stageStatus, false);
      if header.Err? {
        return Some(header.error);
      }
      ghost var rs, t0 := pending, trace;
      var post := MessageSend(inp.channel, "", header.value);
      var msg := Invoke(post);
      if msg.Failed? {
        return Some(RemoteFailed(SendHeader));
      }
      var open := MessageThreadStart(inp.channel, msg.id, ctx.value.threadTitle);
      var thread := Invoke(open);
      AtDrop(rs, 1, 0);
      assert trace == t0 + [Call(post, msg), Call(open, thread)];
      if thread.Failed? {
        return Some(RemoteFailed(OpenThread));
      }
      var note := MessageSend(thread.id, "", Status(color.value, inp.stageStatusLong));
      var sent := Invoke(note);
      DropDrop(rs, 1, 1);
      AtDrop(rs, 2, 0);
      assert trace == t0 + [Call(post, msg), Call(open, thread), Call(note, sent)];
      if sent.Failed? {
        return Some(RemoteFailed(SendStatus));
      }
      WriteOutput(MessageIdOutput, msg.id);
      WriteOutput(ThreadIdOutput, thread.id);
      assert trace == t0 + [Call(post, msg), Call(open, thread), Call(note, sent),
        SetOutput(MessageIdOutput, msg.id), SetOutput(ThreadIdOutput, thread.id)];
      return None;
    }

    /** Edits the top message, then posts in the thread, returning at the first failure. */
    method EditThenPost(edit: Request, note: Request) returns (err: Option<Error>)
      requires Valid()
      modifies this
      ensures Valid()
      ensures trace == old(trace) + Paths.EditThenPost(edit, note, old(pending)).events
      ensures err == Paths.EditThenPost(edit, note, old(pending)).err
    {
      ghost var rs := pending;
      var edited := Invoke(edit);
      if edited.Failed? {
        return Some(RemoteFailed(EditHeader));
      }
      var sent := Invoke(note);
      AtDrop(rs, 1, 0);
      if sent.Failed? {
        return Some(RemoteFailed(SendStatus));
      }
      return None;
    }

    method UpdateThread(inp: Inputs, ctx: Option<RunContext>) returns (err: Option<Error>)
      requires Valid()
      modifies this
      ensures Valid()
      ensures trace == old(trace) + UpdateSpec(inp, ctx, old(pending)).events
      ensures err == UpdateSpec(inp, ctx, old(pending)).err
    {
      var color := StageColor(inp.stage);
      if color.Err? {
        return Some(color.error);
      }
      var header := HeaderEmbed(ctx, inp.stage, inp.stageStatus, false);
      if header.Err? {
        return Some(header.error);
      }
      err := EditThenPost(MessageEdit(inp.channel, inp.messageId, header.value),
                          MessageSend(inp.threadId, "", Status(color.value, inp.stageStatusLong)));
    }

    method ReportStageError(inp: Inputs, ctx: Option<RunContext>) returns (err: Option<Error>)
      requires Valid()
      modifies this
      ensures Valid()
      ensures trace == old(trace) + ReportErrorSpec(inp, ctx, old(pending)).events
      ensures err == ReportErrorSpec(inp, ctx, old(pending)).err
    {
      var header := HeaderEmbed(ctx, inp.stage, inp.stageStatus, true);
      if header.Err? {
        return Some(header.error);
      }
      var top := header.value.(description := FailMarked(inp.stageError));
      err := EditThenPost(MessageEdit(inp.channel, inp.messageId, top),
                          MessageSend(inp.threadId, inp.pingRole, Status(RedColor, inp.stageStatusLong)));
    }

    method ReportCanceled(inp: Inputs, ctx: Option<RunContext>) returns (err: Option<Error>)
      requires Valid()
      modifies this
      ensures Valid()
      ensures trace == old(trace) + ReportCanceledSpec(inp, ctx, old(pending)).events
      ensures err == ReportCanceledSpec(inp, ctx, old(pending)).err
    {
      var header := HeaderEmbed(ctx, inp.stage, inp.stageStatus, true);
      if header.Err? {
        return Some(header.error);
      }
      var top := header.value.(description := inp.canceledMessage, color := GreyColor);
      err := EditThenPost(MessageEdit(inp.channel, inp.messageId, top),
                          MessageSend(inp.threadId, "", Status(GreyColor, inp.stageStatusLong)));
    }

    /** Runs the one flow the dispatch selected. */
    method RunPath(p: Path, inp: Inputs, ctx: Option<RunContext>) returns (err: Option<Error>)
      requires Valid()
      modifies this
      ensures Valid()
      ensures trace == old(trace) + PathSpec(p, inp, ctx, old(pending)).events
      ensures err == PathSpec(p, inp, ctx, old(pending)).err
    {
      match p
      case Start => err := StartThread(inp, ctx);
      case ReportError => err := ReportStageError(inp, ctx);
      case ReportCanceled => err := ReportCanceled(inp, ctx);
      case Update => err := UpdateThread(inp, ctx);
    }

    /** One invocation of the action; a returned error is what it reports before exiting non-zero. */
    method Run(inp: Inputs, ctx: Option<RunContext>) returns (err: Option<Error>)
      requires Valid()
      modifies this
      ensures Valid()
      ensures trace == old(trace) + RunSpec(inp, ctx, old(pending)).events
      ensures err == RunSpec(inp, ctx, old(pending)).err
    {
      var missing := MissingRequired(inp);
      if missing.Some? {
        return missing;
      }
      err := RunWithClient(inp, ctx);
    }

    /** Creates the client, checks the thread IDs and runs the selected flow. */
    method RunWithClient(inp: Inputs, ctx: Option<RunContext>) returns (err: Option<Error>)
      requires Valid()
      modifies this
      ensures Valid()
      ensures trace == old(trace) + ClientSpec(inp, ctx, old(pending)).events
      ensures err == ClientSpec(inp, ctx, old(pending)).err
    {
      var session := Invoke(NewSession(inp.botToken));
      if session.Failed? {
        return Some(SessionFailed);
      }
      var path := SelectPath(inp);
      if path.Err? {
        return Some(path.error);
      }
      ghost var mid := trace;
      err := RunPath(path.value, inp, ctx);
      RunIsSelectedPath(inp, ctx, old(pending));
      assert trace == old(trace) + (mid[|old(trace)|..] + trace[|mid|..]);
    }
  }
}
