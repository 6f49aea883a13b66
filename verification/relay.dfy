/**
 * `StreamProcessor` of backend/src/stream_processor.py: a long-lived object
 * that relays one sub-agent's event stream to an optional parent queue and
 * accumulates the sub-agent's answer in its `response` field.
 *
 * Each `await queue.put(x)` is a sequential append; the stream is an
 * `AgentStream`, whose exception arrives after its events.
 */
module Relay {
  import opened Wrappers
  import opened AgentEvents
  import opened RelaySpec

  /** The parent's `asyncio.Queue`, shared by reference: `put` appends, nothing is read back. */
  class Queue {
    var items: seq<QueueItem>

    constructor ()
      ensures items == []
    {
      items := [];
    }

    method Put(item: QueueItem)
      modifies this
      ensures items == old(items) + [item]
    {
      items := items + [item];
    }
  }

  class StreamProcessor {
    const agentName: string
    var parent: Queue?     // `parent_stream_queue`; an `asyncio.Queue` is truthy, so `not queue` means null
    var response: string   // set only here: never reset between calls

    constructor (agentName: string)
      ensures this.agentName == agentName && parent == null && response == ""
    {
      this.agentName := agentName;
      parent := null;
      response := "";
    }

    /** Replaces the queue reference; the name and the accumulated text stay as they are. */
    method SetParentQueue(queue: Queue?)
      modifies this`parent
      ensures parent == queue && response == old(response)
    {
      parent := queue;
    }

    /** Puts one progress envelope on the parent queue; with no queue, changes nothing. */
    method Notify(message: string, stage: Stage, toolName: Option<string>)
      modifies parent
      ensures parent != null ==> parent.items == old(parent.items) + [Notification(message, stage, toolName)]
    {
      if parent == null {
        return;
      }
      parent.Put(Notification(message, stage, toolName));
    }

    method NotifyStart()
      modifies parent
      ensures parent != null ==> parent.items == old(parent.items) + [StartItem(agentName)]
    {
      Notify(StartMessage(agentName), Start, None);
    }

    method NotifyComplete()
      modifies parent
      ensures parent != null ==> parent.items == old(parent.items) + [CompleteItem(agentName)]
    {
      Notify(CompleteMessage(agentName), Complete, None);
    }

    method NotifyToolUse(toolName: string)
      modifies parent
      ensures parent != null ==> parent.items == old(parent.items) + [ToolUseItem(agentName, toolName)]
    {
      Notify(ToolUseMessage(agentName, toolName), ToolUse, Some(toolName));
    }

    /** One iteration of the relay loop: the event's text and its queue items. */
    method HandleEvent(e: Event)
      modifies this`response, parent
      ensures response == old(response) + TextOf(e)
      ensures parent != null ==> parent.items == old(parent.items) + ItemsOf(agentName, e)
    {
      match e {
        case Text(s) =>
          response := response + s;
          if parent != null {
            parent.Put(Relay(Wrap(s)));
          }
        case Envelope(d) =>
          var tool := ToolUseName(d);
          if tool.Some? {
            NotifyToolUse(tool.value);
          }
          var text := DeltaText(d);
          if text.Some? {
            response := response + text.value;
          }
          if parent != null {
            parent.Put(Relay(e));
          }
        case Unrecognized(_) =>
      }
    }

    /**
     * Relays `stream` and returns the accumulated text, or the failure text
     * when the stream raises. `response` keeps growing from its old value;
     * on failure it holds the text of the events delivered before the raise.
     */
    method ProcessAgentStream(stream: AgentStream) returns (r: string)
      modifies this`response, parent
      ensures response == old(response) + Accumulated(stream.events)
      ensures r == if stream.raises then FailureMessage(agentName) else response
      ensures parent != null ==> parent.items == old(parent.items) + Trace(agentName, stream)
    {
      NotifyStart();
      var events := stream.events;
      var i := 0;
      while i < |events|
        invariant 0 <= i <= |events|
        invariant response == old(response) + Accumulated(events[..i])
        invariant parent != null ==>
          parent.items == old(parent.items) + [StartItem(agentName)] + Relayed(agentName, events[..i])
      {
        HandleEvent(events[i]);
        StepOne(agentName, events, i);
        i := i + 1;
      }
      assert events[..i] == events;
      if stream.raises {
        return FailureMessage(agentName);
      }
      NotifyComplete();
      r := response;
    }

    /**
     * Runs the agent's stream for `query` through `ProcessAgentStream`;
     * `agentStream` stands for `agent_factory().stream_async(query)`.
     */
    method ProcessQueryWithContext(query: string, agentStream: string -> AgentStream) returns (r: string)
      modifies this`response, parent
      ensures response == old(response) + Accumulated(agentStream(query).events)
      ensures r == if agentStream(query).raises then FailureMessage(agentName) else response
      ensures parent != null ==> parent.items == old(parent.items) + Trace(agentName, agentStream(query))
    {
      r := ProcessAgentStream(agentStream(query));
    }
  }

  /**
   * One instance answering two queries in turn, as a long-lived instance
   * does: the second answer repeats the first one's text before its own.
   */
  method ConsecutiveCalls(agent: string, first: AgentStream, second: AgentStream) returns (answer: string)
    ensures !second.raises ==> answer == Accumulated(first.events) + Accumulated(second.events)
    ensures second.raises ==> answer == FailureMessage(agent)
  {
    var processor := new StreamProcessor(agent);
    var _ := processor.ProcessAgentStream(first);
    answer := processor.ProcessAgentStream(second);
  }

  /**
   * Two instances sharing one parent queue, called one after the other: each
   * call's items form one contiguous block, in call order.
   */
  method SharedQueue(a: string, b: string, first: AgentStream, second: AgentStream) returns (items: seq<QueueItem>)
    ensures items == Trace(a, first) + Trace(b, second)
  {
    var queue := new Queue();
    var p := new StreamProcessor(a);
    var q := new StreamProcessor(b);
    p.SetParentQueue(queue);
    q.SetParentQueue(queue);
    var _ := p.ProcessAgentStream(first);
    var _ := q.ProcessAgentStream(second);
    items := queue.items;
  }
}
