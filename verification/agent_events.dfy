/**
 * The values that flow through the sub-agent stream relay of
 * backend/src/stream_processor.py: the events an agent stream yields, the
 * items the relay puts on the parent's queue, and the notification texts.
 *
 * Python dictionaries are decoded into variants: only the keys the relay
 * inspects are represented, each as an `Option` because the key may be
 * missing. A dictionary is relayed as the same value, so keys the relay never
 * reads need no representation for "forwarded unchanged" to mean something.
 */
module AgentEvents {
  import opened Wrappers

  /** `toolUse` inside `contentBlockStart.start`; its `name` key may be missing. */
  datatype ToolUseData = ToolUseData(name: Option<string>)

  /** `contentBlockStart.start`; a missing `start` key reads as `{}`. */
  datatype StartData = StartData(toolUse: Option<ToolUseData>)

  datatype ContentBlockStart = ContentBlockStart(start: Option<StartData>)

  /** `contentBlockDelta.delta`; its `text` key may be missing. */
  datatype DeltaData = DeltaData(text: Option<string>)

  /** `contentBlockDelta`; a missing `delta` key reads as `{}`. */
  datatype ContentBlockDelta = ContentBlockDelta(delta: Option<DeltaData>)

  /** The value under the `"event"` key of an envelope dictionary. */
  datatype EventData = EventData(blockStart: Option<ContentBlockStart>, blockDelta: Option<ContentBlockDelta>)

  /** One value yielded by the agent stream, sorted by shape. */
  datatype Event =
    | Text(text: string)              // a bare `str`
    | Envelope(data: EventData)       // a `dict` holding an `"event"` key
    | Unrecognized(value: string)     // a `dict` without `"event"`, or any other value

  /**
   * An agent stream: it yields `events` in order and then either ends or
   * raises an exception when asked for the next one.
   */
  datatype AgentStream = AgentStream(events: seq<Event>, raises: bool)

  /** The `stage` of a progress notification: "start", "tool_use", "complete". */
  datatype Stage = Start | ToolUse | Complete

  /** What the relay puts on the parent queue. */
  datatype QueueItem =
    | Progress(message: string, stage: Stage, toolName: Option<string>)  // {"event": {"subAgentProgress": ...}}
    | Relay(event: Event)                                                 // an event dictionary, as put
  {
    predicate HasStage(s: Stage) {
      Progress? && stage == s
    }
  }

  /** The tool an envelope announces: `toolUse.name`, or "unknown" when that key is missing. */
  function ToolUseName(d: EventData): Option<string> {
    match d.blockStart
    case Some(ContentBlockStart(Some(StartData(Some(ToolUseData(name)))))) => Some(name.GetOr("unknown"))
    case _ => None
  }

  /** The text an envelope carries in `contentBlockDelta.delta.text`, if any. */
  function DeltaText(d: EventData): Option<string> {
    match d.blockDelta
    case Some(ContentBlockDelta(Some(DeltaData(Some(t))))) => Some(t)
    case _ => None
  }

  /** The text an event adds to the accumulated response. */
  function TextOf(e: Event): string {
    match e
    case Text(s) => s
    case Envelope(d) => DeltaText(d).GetOr("")
    case Unrecognized(_) => ""
  }

  /** The envelope `{"event": {"contentBlockDelta": {"delta": {"text": s}}}}` a bare string is relayed as. */
  function Wrap(s: string): (e: Event)
    ensures e.Envelope? && DeltaText(e.data) == Some(s) && ToolUseName(e.data) == None
    ensures TextOf(e) == s
  {
    Envelope(EventData(None, Some(ContentBlockDelta(Some(DeltaData(Some(s)))))))
  }

  function StartMessage(agent: string): string {
    "サブエージェント「" + agent + "」が呼び出されました"
  }

  function CompleteMessage(agent: string): string {
    "サブエージェント「" + agent + "」が調査を完了しました"
  }

  function ToolUseMessage(agent: string, tool: string): string {
    "サブエージェント「" + agent + "」がツール「" + tool + "」を実行中"
  }

  /** What a call returns when the stream raises. */
  function FailureMessage(agent: string): string {
    agent + "エージェントの処理に失敗しました"
  }

  /**
   * The progress envelope `_notify` builds: the `tool_name` key is present
   * only when a tool name is given and is not the empty string.
   */
  function Notification(message: string, stage: Stage, toolName: Option<string>): (r: QueueItem)
    ensures r.Progress? && r.message == message && r.stage == stage
    ensures r.toolName.Some? <==> toolName.Some? && toolName.value != ""
    ensures r.toolName.Some? ==> r.toolName == toolName
  {
    Progress(message, stage, if toolName.Some? && toolName.value != "" then toolName else None)
  }

  function StartItem(agent: string): QueueItem {
    Notification(StartMessage(agent), Start, None)
  }

  function CompleteItem(agent: string): QueueItem {
    Notification(CompleteMessage(agent), Complete, None)
  }

  function ToolUseItem(agent: string, tool: string): QueueItem {
    Notification(ToolUseMessage(agent, tool), ToolUse, Some(tool))
  }

  /** `part` occurs somewhere in `s`. */
  predicate Contains(s: string, part: string) {
    exists i | 0 <= i <= |s| :: part <= s[i..]
  }

  /** Every notification text names the agent; the tool-use text also names the tool. */
  lemma MessagesEmbedNames(agent: string, tool: string)
    ensures Contains(StartMessage(agent), agent)
    ensures Contains(CompleteMessage(agent), agent)
    ensures Contains(ToolUseMessage(agent, tool), agent)
    ensures Contains(ToolUseMessage(agent, tool), tool)
    ensures agent <= FailureMessage(agent)
  {
    var open := "サブエージェント「";
    assert agent <= StartMessage(agent)[|open|..];
    assert agent <= CompleteMessage(agent)[|open|..];
    var m := ToolUseMessage(agent, tool);
    assert agent <= m[|open|..];
    var k := |open + agent + "」がツール「"|;
    assert tool <= m[k..];
  }

  /** A start, complete or failure text determines the agent it names. */
  lemma MessagesIdentifyAgent(a: string, b: string)
    ensures StartMessage(a) == StartMessage(b) ==> a == b
    ensures CompleteMessage(a) == CompleteMessage(b) ==> a == b
    ensures FailureMessage(a) == FailureMessage(b) ==> a == b
  {
    var open := "サブエージェント「";
    if StartMessage(a) == StartMessage(b) {
      assert a == StartMessage(a)[|open|..|open| + |a|];
      assert b == StartMessage(b)[|open|..|open| + |b|];
    }
    if CompleteMessage(a) == CompleteMessage(b) {
      assert a == CompleteMessage(a)[|open|..|open| + |a|];
      assert b == CompleteMessage(b)[|open|..|open| + |b|];
    }
    if FailureMessage(a) == FailureMessage(b) {
      assert a == FailureMessage(a)[..|a|];
      assert b == FailureMessage(b)[..|b|];
    }
  }
}
