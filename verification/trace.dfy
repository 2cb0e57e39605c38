/**
 * The observable behaviour of an invocation: the calls it makes into the
 * chat library, each with the reply it got, and the outputs it writes.
 * Replies come from an oracle, a sequence of outcomes consumed in call
 * order; a call the oracle has no reply for fails.
 */
module Trace {
  import opened Wrappers
  import opened ActionIO
  import opened Render

  /** A call either fails or succeeds with the ID of what it created (unused for edits). */
  datatype Reply = Failed | Delivered(id: string)

  datatype Request =
    | NewSession(token: string)
    | MessageSend(channelId: string, content: string, embed: Embed)
    | MessageThreadStart(channelId: string, messageId: string, name: string)
    | MessageEdit(channelId: string, messageId: string, embed: Embed)

  /** Creating the client is local; every other request goes over the network. */
  predicate IsRemote(req: Request)
  {
    !req.NewSession?
  }

  datatype Event = Call(request: Request, reply: Reply) | SetOutput(name: string, value: string)

  /** What a flow did and how it ended. */
  datatype Outcome = Outcome(events: seq<Event>, err: Option<Error>)

  /** The oracle's `i`-th reply. */
  function At(rs: seq<Reply>, i: nat): Reply
  {
    if i < |rs| then rs[i] else Failed
  }

  function IdOf(r: Reply): string
  {
    if r.Delivered? then r.id else ""
  }

  /** The oracle after `n` replies have been used. */
  function Drop(rs: seq<Reply>, n: nat): seq<Reply>
  {
    if n <= |rs| then rs[n..] else []
  }

  /** After `n` replies are used, the `i`-th reply is the one that was `n + i`-th. */
  lemma AtDrop(rs: seq<Reply>, n: nat, i: nat)
    ensures At(Drop(rs, n), i) == At(rs, n + i)
  {
  }

  lemma DropDrop(rs: seq<Reply>, m: nat, n: nat)
    ensures Drop(Drop(rs, m), n) == Drop(rs, m + n)
  {
  }

  /** The number of calls made, which is the number of replies used. */
  function Calls(events: seq<Event>): nat
  {
    if events == [] then 0 else (if events[0].Call? then 1 else 0) + Calls(events[1..])
  }

  lemma {:induction false} CallsAppend(a: seq<Event>, b: seq<Event>)
    ensures Calls(a + b) == Calls(a) + Calls(b)
  {
    if a != [] {
      assert (a + b)[1..] == a[1..] + b;
      CallsAppend(a[1..], b);
    } else {
      assert a + b == b;
    }
  }

  /** The outputs written, as (name, value) pairs in order. */
  function Outputs(events: seq<Event>): seq<(string, string)>
  {
    if events == [] then []
    else (if events[0].SetOutput? then [(events[0].name, events[0].value)] else []) + Outputs(events[1..])
  }

  lemma {:induction false} OutputsAppend(a: seq<Event>, b: seq<Event>)
    ensures Outputs(a + b) == Outputs(a) + Outputs(b)
  {
    if a != [] {
      assert (a + b)[1..] == a[1..] + b;
      OutputsAppend(a[1..], b);
    } else {
      assert a + b == b;
    }
  }

  /** A trace without any output event writes nothing. */
  lemma {:induction false} NoOutputs(events: seq<Event>)
    requires forall i :: 0 <= i < |events| ==> events[i].Call?
    ensures Outputs(events) == []
  {
    if events != [] {
      NoOutputs(events[1..]);
    }
  }

  predicate DeliveredUpTo(rs: seq<Reply>, k: nat)
  {
    forall i :: 0 <= i < k ==> At(rs, i).Delivered?
  }

  /**
   * `o` is what running the calls of `plan` against the oracle `rs` gives
   * when a flow stops at its first failed call: the calls made are a prefix
   * of the plan, each with its reply in order; if every reply succeeds the
   * whole plan runs and `tail` follows; otherwise the last call made is the
   * first one that failed and the error names its step.
   */
  predicate RanPlan(o: Outcome, plan: seq<Request>, steps: seq<Step>, rs: seq<Reply>, tail: seq<Event>)
  {
    |steps| == |plan| &&
    (forall i :: 0 <= i < |plan| && i < |o.events| ==> o.events[i] == Call(plan[i], At(rs, i))) &&
    if DeliveredUpTo(rs, |plan|) then
      |o.events| == |plan| + |tail| && o.events[|plan|..] == tail && o.err.None?
    else
      0 < |o.events| <= |plan| && DeliveredUpTo(rs, |o.events| - 1) && At(rs, |o.events| - 1).Failed? &&
      o.err == Some(RemoteFailed(steps[|o.events| - 1]))
  }

  /**
   * The flow-independent discipline: the `i`-th call gets the oracle's `i`-th
   * reply, and a failed call is the last event and makes the outcome an error.
   */
  predicate FailFast(o: Outcome, rs: seq<Reply>)
  {
    (forall i :: 0 <= i < |o.events| && o.events[i].Call? ==> o.events[i].reply == At(rs, i)) &&
    (forall i :: 0 <= i < |o.events| && o.events[i].Call? && o.events[i].reply.Failed? ==>
      i == |o.events| - 1 && o.err.Some?)
  }

  lemma RanPlanFailFast(o: Outcome, plan: seq<Request>, steps: seq<Step>, rs: seq<Reply>, tail: seq<Event>)
    requires RanPlan(o, plan, steps, rs, tail)
    requires forall i :: 0 <= i < |tail| ==> !tail[i].Call?
    ensures FailFast(o, rs)
  {
    if DeliveredUpTo(rs, |plan|) {
      forall i | |plan| <= i < |o.events|
        ensures !o.events[i].Call?
      {
        assert o.events[i] == tail[i - |plan|];
      }
    }
  }
}
