/** The translator of Codex's exec event lines (internal/agent/codex.go) and its
    composition with the card reducer (internal/card/state.go). */
module CodexTranslator {
  import opened Common
  import opened AgentEvents
  import opened CardState

  /** The `item` object of a line. Values the code only re-encodes are kept as the
      text they are encoded to; a missing string is empty. */
  datatype Item = Item(
    typ: string, id: string, text: string, message: string,
    command: string, server: string, tool: string, query: string, input: string,
    status: string, exitCode: int, failure: Option<string>, output: string)

  datatype UsageData = UsageData(input: int, output: int, cached: int, reasoning: int)

  /** One decoded line. */
  datatype Line =
    | Ignored                                // not JSON, no type, or a type without effect
    | ThreadStarted(threadId: string)
    | ItemStarted(item: Option<Item>)
    | ItemCompleted(item: Option<Item>)
    | AgentMessage(message: string)
    | TurnCompleted(usage: Option<UsageData>)
    | TurnFailed(message: string)
    | ErrorLine(message: string)

  // ----- the pure helpers ---------------------------------------------------

  function FirstNonEmpty(a: string, b: string): string {
    if a != "" then a else b
  }

  /** `codexToolUse`. */
  function ToolUseOf(item: Item): (r: Option<Event>)
    ensures r.Some? ==> r.value.ToolUse? && r.value.id == item.id && item.id != ""
  {
    if item.id == "" then None
    else if item.typ == "command_execution" then Some(ToolUse(item.id, "command_execution", item.command))
    else if item.typ == "file_change" then Some(ToolUse(item.id, "file_change", item.input))
    else if item.typ == "mcp_tool_call" then
      Some(ToolUse(item.id,
                   if item.server != "" || item.tool != "" then "mcp:" + item.server + "/" + item.tool else "mcp",
                   item.input))
    else if item.typ == "web_search" then Some(ToolUse(item.id, "web_search", item.query))
    else if item.typ == "collab_tool_call" then Some(ToolUse(item.id, "collab:" + item.tool, item.input))
    else if item.typ == "todo_list" then Some(ToolUse(item.id, "todo_list", item.input))
    else if item.typ == "error" then Some(ToolUse(item.id, "codex_error", ""))
    else None
  }

  /** The `codex*Result` helpers. */
  function ResultOf(item: Item): Event {
    if item.typ == "command_execution" then
      ToolResult(item.id, item.output, item.status == "failed" || item.status == "declined" || item.exitCode > 0)
    else if item.typ == "mcp_tool_call" && item.failure.Some? then ToolResult(item.id, item.failure.value, true)
    else if item.typ == "web_search" then ToolResult(item.id, FirstNonEmpty(item.output, item.query), false)
    else if item.typ == "todo_list" then ToolResult(item.id, item.output, false)
    else if item.typ == "error" then ToolResult(item.id, item.message, true)
    else ToolResult(item.id, item.output, item.status == "failed")
  }

  /** The item types whose completion finishes a tool. */
  predicate ToolType(typ: string) {
    typ in {"command_execution", "file_change", "mcp_tool_call", "web_search", "collab_tool_call", "todo_list", "error"}
  }

  const MESSAGE_LIMIT := 4096

  function Truncated(message: string): string {
    if |message| > MESSAGE_LIMIT then message[..MESSAGE_LIMIT] else message
  }

  // ----- the translator as a function ---------------------------------------

  datatype Snapshot = Snapshot(
    threadId: string, model: string, terminal: bool, pending: string, started: map<string, string>)

  /** `prependPending`: a held-back message goes out before other events. */
  function Prepended(t: Snapshot, events: seq<Event>): (Snapshot, seq<Event>) {
    if events == [] || t.pending == "" then (t, events)
    else (t.(pending := ""), [Text(t.pending)] + events)
  }

  /** `queueAgentMessage`: the newest message is held back. */
  function Queued(t: Snapshot, message: string): (Snapshot, seq<Event>) {
    (t.(pending := message), if t.pending != "" then [Text(t.pending)] else [])
  }

  /** `completeTool`: a tool that was never announced is announced first. */
  function CompletedTool(t: Snapshot, item: Item): (Snapshot, seq<Event>) {
    match ToolUseOf(item)
    case None => (t, [])
    case Some(use) =>
      (t.(started := t.started - {item.id}),
       if item.id in t.started then [ResultOf(item)] else [use, ResultOf(item)])
  }

  function CompletedItem(t: Snapshot, item: Item): (Snapshot, seq<Event>) {
    if item.typ == "agent_message" then
      var message := FirstNonEmpty(item.text, item.message);
      if message != "" then Queued(t, message) else (t, [])
    else if item.typ == "reasoning" || item.typ == "plan" then
      if item.text != "" then Prepended(t, [Thinking(item.text)]) else (t, [])
    else if ToolType(item.typ) then
      var (u, events) := CompletedTool(t, item);
      Prepended(u, events)
    else (t, [])
  }

  function StartedItem(t: Snapshot, item: Item): (Snapshot, seq<Event>) {
    match ToolUseOf(item)
    case None => (t, [])
    case Some(use) => Prepended(t.(started := t.started[use.id := use.name]), [use])
  }

  function UsageEvents(usage: Option<UsageData>): seq<Event> {
    match usage
    case None => []
    case Some(u) => [Usage(u.input, u.output, u.cached, u.reasoning)]
  }

  function Finished(t: Snapshot, usage: Option<UsageData>): (Snapshot, seq<Event>) {
    (t.(terminal := true, pending := ""),
     (if t.pending != "" then [FinalText(t.pending)] else []) + UsageEvents(usage) + [Done("", t.threadId, Normal)])
  }

  function FailedWith(t: Snapshot, message: string, fallback: string): (Snapshot, seq<Event>) {
    Prepended(t.(terminal := true), [Error(Truncated(FirstNonEmpty(message, fallback)), Failed)])
  }

  function Translated(t: Snapshot, line: Line): (Snapshot, seq<Event>) {
    if t.terminal then (t, [])
    else
      match line
      case Ignored => (t, [])
      case ThreadStarted(id) => if id != "" then (t.(threadId := id), [System("", id, t.model, 0)]) else (t, [])
      case ItemStarted(item) => if item.None? then (t, []) else StartedItem(t, item.value)
      case ItemCompleted(item) => if item.None? then (t, []) else CompletedItem(t, item.value)
      case AgentMessage(message) => if message != "" then Queued(t, message) else (t, [])
      case TurnCompleted(usage) => Finished(t, usage)
      case TurnFailed(message) => FailedWith(t, message, "codex turn failed")
      case ErrorLine(message) => FailedWith(t, message, "codex error")
  }

  // ----- the translator as an object ----------------------------------------

  class Translator {
    var threadId: string
    var model: string
    var terminal: bool
    var pendingAgentMessage: string
    var startedItems: map<string, string>

    constructor (model: string)
      ensures View() == Fresh(model)
    {
      threadId, this.model, terminal, pendingAgentMessage, startedItems := "", model, false, "", map[];
    }

    ghost function View(): Snapshot
      reads this
    {
      Snapshot(threadId, model, terminal, pendingAgentMessage, startedItems)
    }

    method PrependPending(later: seq<Event>) returns (out: seq<Event>)
      modifies this`pendingAgentMessage
      ensures var (after, events) := Prepended(old(View()), later); View() == after && out == events
    {
      if |later| == 0 || pendingAgentMessage == "" {
        return later;
      }
      out := [Text(pendingAgentMessage)] + later;
      pendingAgentMessage := "";
    }

    method QueueAgentMessage(message: string) returns (out: seq<Event>)
      modifies this`pendingAgentMessage
      ensures var (after, events) := Queued(old(View()), message); View() == after && out == events
    {
      out := [];
      if pendingAgentMessage != "" {
        out := out + [Text(pendingAgentMessage)];
      }
      pendingAgentMessage := message;
    }

    method CompleteTool(item: Item) returns (out: seq<Event>)
      modifies this`startedItems
      ensures var (after, events) := CompletedTool(old(View()), item); View() == after && out == events
    {
      var use := ToolUseOf(item);
      if use.None? {
        return [];
      }
      out := [];
      if item.id !in startedItems {
        out := out + [use.value];
      }
      startedItems := startedItems - {item.id};
      out := out + [ResultOf(item)];
    }

    method TranslateItemCompleted(item: Item) returns (out: seq<Event>)
      modifies this
      ensures var (after, events) := CompletedItem(old(View()), item); View() == after && out == events
    {
      out := [];
      if item.typ == "agent_message" {
        var message := FirstNonEmpty(item.text, item.message);
        if message != "" {
          out := QueueAgentMessage(message);
        }
      } else if item.typ == "reasoning" || item.typ == "plan" {
        if item.text != "" {
          out := PrependPending([Thinking(item.text)]);
        }
      } else if ToolType(item.typ) {
        out := CompleteTool(item);
        out := PrependPending(out);
      }
    }

    method TranslateItemStarted(item: Item) returns (out: seq<Event>)
      modifies this
      ensures var (after, events) := StartedItem(old(View()), item); View() == after && out == events
    {
      var use := ToolUseOf(item);
      if use.None? {
        return [];
      }
      startedItems := startedItems[use.value.id := use.value.name];
      out := PrependPending([use.value]);
    }

    method TranslateTurnCompleted(usage: Option<UsageData>) returns (out: seq<Event>)
      modifies this
      ensures var (after, events) := Finished(old(View()), usage); View() == after && out == events
    {
      terminal := true;
      out := [];
      if pendingAgentMessage != "" {
        out := out + [FinalText(pendingAgentMessage)];
        pendingAgentMessage := "";
      }
      if usage.Some? {
        out := out + [Usage(usage.value.input, usage.value.output, usage.value.cached, usage.value.reasoning)];
      }
      out := out + [Done("", threadId, Normal)];
    }

    method TerminalError(message: string, fallback: string) returns (out: seq<Event>)
      modifies this
      ensures var (after, events) := FailedWith(old(View()), message, fallback); View() == after && out == events
    {
      terminal := true;
      out := PrependPending([Error(Truncated(FirstNonEmpty(message, fallback)), Failed)]);
    }

    method Translate(line: Line) returns (out: seq<Event>)
      modifies this
      ensures var (after, events) := Translated(old(View()), line); View() == after && out == events
    {
      out := [];
      if terminal {
        return;
      }
      match line
      case Ignored =>
      case ThreadStarted(id) =>
        if id != "" {
          threadId := id;
          out := [System("", id, model, 0)];
        }
      case ItemStarted(item) =>
        if item.Some? {
          out := TranslateItemStarted(item.value);
        }
      case ItemCompleted(item) =>
        if item.Some? {
          out := TranslateItemCompleted(item.value);
        }
      case AgentMessage(message) =>
        if message != "" {
          out := QueueAgentMessage(message);
        }
      case TurnCompleted(usage) =>
        out := TranslateTurnCompleted(usage);
      case TurnFailed(message) =>
        out := TerminalError(message, "codex turn failed");
      case ErrorLine(message) =>
        out := TerminalError(message, "codex error");
    }
  }

  function Fresh(model: string): Snapshot {
    Snapshot("", model, false, "", map[])
  }

  /** The translator's state and all events after a list of lines. */
  function Run(model: string, lines: seq<Line>): (Snapshot, seq<Event>) {
    if lines == [] then (Fresh(model), [])
    else
      var (t, out) := Run(model, lines[..|lines| - 1]);
      var (u, events) := Translated(t, lines[|lines| - 1]);
      (u, out + events)
  }

  // ----- tools: the translator and the card agree ---------------------------

  /** The tools announced and not finished in an event list. */
  ghost function OpenTools(events: seq<Event>): set<string> {
    if events == [] then {}
    else
      var open := OpenTools(events[..|events| - 1]);
      var e := events[|events| - 1];
      if e.ToolUse? then open + {e.id} else if e.ToolResult? then open - {e.id} else open
  }

  lemma OpenToolsSnoc(events: seq<Event>, e: Event)
    ensures OpenTools(events + [e]) ==
            if e.ToolUse? then OpenTools(events) + {e.id}
            else if e.ToolResult? then OpenTools(events) - {e.id} else OpenTools(events)
  {
    assert (events + [e])[..|events|] == events;
  }

  /** An announcement of `id` that no result has answered. */
  ghost predicate Unanswered(events: seq<Event>, id: string) {
    exists i :: 0 <= i < |events| && events[i].ToolUse? && events[i].id == id && NoResultFrom(events, i, id)
  }

  ghost predicate NoResultFrom(events: seq<Event>, from: nat, id: string) {
    forall k :: from < k < |events| ==> !(events[k].ToolResult? && events[k].id == id)
  }

  lemma {:induction false} OpenToolsMeaning(events: seq<Event>, id: string)
    ensures id in OpenTools(events) <==> Unanswered(events, id)
  {
    if events != [] {
      var past, e := events[..|events| - 1], events[|events| - 1];
      OpenToolsMeaning(past, id);
      UnansweredSnoc(past, e, id);
      assert past + [e] == events;
    }
  }

  lemma UnansweredSnoc(past: seq<Event>, e: Event, id: string)
    ensures Unanswered(past + [e], id) <==>
            (e.ToolUse? && e.id == id) || (Unanswered(past, id) && !(e.ToolResult? && e.id == id))
  {
    var events := past + [e];
    if e.ToolUse? && e.id == id {
      assert events[|past|] == e && NoResultFrom(events, |past|, id);
    }
    if Unanswered(past, id) && !(e.ToolResult? && e.id == id) {
      var i :| 0 <= i < |past| && past[i].ToolUse? && past[i].id == id && NoResultFrom(past, i, id);
      assert events[i] == past[i] && NoResultFrom(events, i, id);
    }
    if Unanswered(events, id) {
      var i :| 0 <= i < |events| && events[i].ToolUse? && events[i].id == id && NoResultFrom(events, i, id);
      if i < |past| {
        assert events[|past|] == e;
        assert events[i] == past[i] && forall k :: i < k < |past| ==> past[k] == events[k];
        assert NoResultFrom(past, i, id);
      }
    }
  }

  /** Ids of the tools the card shows as running. */
  ghost function RunningIds(blocks: seq<Block>): set<string> {
    set i | 0 <= i < |blocks| && blocks[i].ToolBlock? && blocks[i].tool.status == ToolRunning :: blocks[i].tool.id
  }

  lemma RunningStep(blocks: seq<Block>, e: Event)
    ensures RunningIds(BlocksAfter(blocks, e)) ==
            if e.ToolUse? then RunningIds(blocks) + {e.id}
            else if e.ToolResult? then RunningIds(blocks) - {e.id} else RunningIds(blocks)
  {
    var after := BlocksAfter(blocks, e);
    forall id | id in RunningIds(after) && !(e.ToolUse? && id == e.id)
      ensures id in RunningIds(blocks) && !(e.ToolResult? && id == e.id)
    {
      var i :| 0 <= i < |after| && after[i].ToolBlock? && after[i].tool.status == ToolRunning && after[i].tool.id == id;
      assert i < |blocks| && blocks[i] == after[i];
    }
    forall id | id in RunningIds(blocks) && !(e.ToolResult? && id == e.id) ensures id in RunningIds(after) {
      var i :| 0 <= i < |blocks| && blocks[i].ToolBlock? && blocks[i].tool.status == ToolRunning
               && blocks[i].tool.id == id;
      assert after[i] == blocks[i];
    }
    if e.ToolUse? {
      assert after[|blocks|].tool.id == e.id;
    }
  }

  /** For any event list the card shows as running what is announced and unfinished. */
  lemma {:induction false} CardShowsOpenTools(events: seq<Event>)
    ensures RunningIds(Fold(events).blocks) == OpenTools(events)
  {
    if events != [] {
      var past, e := events[..|events| - 1], events[|events| - 1];
      assert past + [e] == events;
      CardShowsOpenTools(past);
      FoldSnoc(past, e);
      RunningStep(Fold(past).blocks, e);
    }
  }

  /** Every result answers an announcement. */
  ghost predicate Paired(events: seq<Event>) {
    forall j :: 0 <= j < |events| && events[j].ToolResult? ==> events[j].id in OpenTools(events[..j])
  }

  lemma PairedSnoc(events: seq<Event>, e: Event)
    requires Paired(events) && (e.ToolResult? ==> e.id in OpenTools(events))
    ensures Paired(events + [e])
  {
    forall j | 0 <= j <= |events| && (events + [e])[j].ToolResult?
      ensures (events + [e])[j].id in OpenTools((events + [e])[..j])
    {
      assert (events + [e])[..j] == events[..j];
      assert events[..|events|] == events;
    }
  }

  ghost predicate ToolsOk(t: Snapshot, events: seq<Event>) {
    OpenTools(events) == t.started.Keys && Paired(events)
  }

  lemma QuietEvent(t: Snapshot, events: seq<Event>, e: Event)
    requires ToolsOk(t, events) && !e.ToolUse? && !e.ToolResult?
    ensures ToolsOk(t, events + [e])
  {
    OpenToolsSnoc(events, e);
    PairedSnoc(events, e);
  }

  lemma AnnounceTool(t: Snapshot, events: seq<Event>, use: Event)
    requires ToolsOk(t, events) && use.ToolUse?
    ensures ToolsOk(t.(started := t.started[use.id := use.name]), events + [use])
  {
    OpenToolsSnoc(events, use);
    PairedSnoc(events, use);
  }

  lemma AnswerTool(t: Snapshot, events: seq<Event>, result: Event)
    requires ToolsOk(t, events) && result.ToolResult? && result.id in t.started
    ensures ToolsOk(t.(started := t.started - {result.id}), events + [result])
  {
    OpenToolsSnoc(events, result);
    PairedSnoc(events, result);
  }

  /** A tool that is announced and answered at once. */
  lemma AnnounceAndAnswer(t: Snapshot, events: seq<Event>, use: Event, result: Event)
    requires ToolsOk(t, events) && use.ToolUse? && result.ToolResult? && result.id == use.id && use.id !in t.started
    ensures ToolsOk(t, events + [use, result])
  {
    AnnounceTool(t, events, use);
    AnswerTool(t.(started := t.started[use.id := use.name]), events + [use], result);
    assert events + [use] + [result] == events + [use, result];
  }

  lemma CompletedKeepsTools(t: Snapshot, events: seq<Event>, item: Item)
    requires ToolsOk(t, events)
    ensures ToolsOk(CompletedTool(t, item).0, events + CompletedTool(t, item).1)
  {
    match ToolUseOf(item)
    case None =>
      assert events + [] == events;
    case Some(use) =>
      if item.id in t.started {
        AnswerTool(t, events, ResultOf(item));
      } else {
        AnnounceAndAnswer(t, events, use, ResultOf(item));
        assert t.started - {item.id} == t.started;
      }
  }

  lemma PrependedKeepsTools(t: Snapshot, events: seq<Event>, u: Snapshot, more: seq<Event>)
    requires ToolsOk(t, events)
    requires forall past: seq<Event> :: ToolsOk(t, past) ==> ToolsOk(u, past + more)
    ensures ToolsOk(Prepended(u, more).0, events + Prepended(u, more).1)
  {
    if more != [] && u.pending != "" {
      QuietEvent(t, events, Text(u.pending));
      assert events + Prepended(u, more).1 == (events + [Text(u.pending)]) + more;
    }
  }

  lemma StartedKeepsTools(t: Snapshot, events: seq<Event>, item: Item)
    requires ToolsOk(t, events)
    ensures ToolsOk(StartedItem(t, item).0, events + StartedItem(t, item).1)
  {
    match ToolUseOf(item)
    case None =>
      assert events + [] == events;
    case Some(use) =>
      var u := t.(started := t.started[use.id := use.name]);
      forall past | ToolsOk(t, past) ensures ToolsOk(u, past + [use]) {
        AnnounceTool(t, past, use);
      }
      PrependedKeepsTools(t, events, u, [use]);
  }

  lemma FinishedToolKeepsTools(t: Snapshot, events: seq<Event>, item: Item)
    requires ToolsOk(t, events) && ToolType(item.typ)
    ensures ToolsOk(CompletedItem(t, item).0, events + CompletedItem(t, item).1)
  {
    var (u, more) := CompletedTool(t, item);
    forall past | ToolsOk(t, past) ensures ToolsOk(u, past + more) {
      CompletedKeepsTools(t, past, item);
    }
    PrependedKeepsTools(t, events, u, more);
  }

  lemma TranslateKeepsTools(t: Snapshot, events: seq<Event>, line: Line)
    requires ToolsOk(t, events)
    ensures ToolsOk(Translated(t, line).0, events + Translated(t, line).1)
  {
    if t.terminal {
      assert events + [] == events;
    } else if line.ItemStarted? && line.item.Some? {
      StartedKeepsTools(t, events, line.item.value);
    } else if line.ItemCompleted? && line.item.Some? && ToolType(line.item.value.typ) {
      FinishedToolKeepsTools(t, events, line.item.value);
    } else {
      QuietEvents(t, events, Translated(t, line).1);
    }
  }

  lemma {:induction false} QuietEvents(t: Snapshot, events: seq<Event>, more: seq<Event>)
    requires ToolsOk(t, events)
    requires forall i :: 0 <= i < |more| ==> !more[i].ToolUse? && !more[i].ToolResult?
    ensures ToolsOk(t, events + more)
  {
    if more == [] {
      assert events + more == events;
    } else {
      QuietEvents(t, events, more[..|more| - 1]);
      QuietEvent(t, events + more[..|more| - 1], more[|more| - 1]);
      assert events + more == events + more[..|more| - 1] + [more[|more| - 1]];
    }
  }

  lemma {:induction false} RunKeepsTools(model: string, lines: seq<Line>)
    ensures ToolsOk(Run(model, lines).0, Run(model, lines).1)
  {
    if lines != [] {
      RunKeepsTools(model, lines[..|lines| - 1]);
      var (t, out) := Run(model, lines[..|lines| - 1]);
      TranslateKeepsTools(t, out, lines[|lines| - 1]);
    }
  }

  /** On the card fed by the translator, the tools shown as running are exactly the
      started items; and every result answers an announcement of its id that no
      other result answered before. */
  lemma CardAgreesWithTranslator(model: string, lines: seq<Line>)
    ensures var (t, events) := Run(model, lines);
            && RunningIds(Fold(events).blocks) == t.started.Keys
            && forall j :: 0 <= j < |events| && events[j].ToolResult? ==> Unanswered(events[..j], events[j].id)
  {
    RunKeepsTools(model, lines);
    var events := Run(model, lines).1;
    CardShowsOpenTools(events);
    forall j | 0 <= j < |events| && events[j].ToolResult? ensures Unanswered(events[..j], events[j].id) {
      OpenToolsMeaning(events[..j], events[j].id);
    }
  }

  // ----- messages: holding one back changes no order and loses none ----------

  /** The translator without the held-back message: every message goes out at once. */
  function Eager(t: Snapshot, line: Line): (Snapshot, seq<Event>) {
    if t.terminal then (t, [])
    else
      match line
      case AgentMessage(message) => (t, if message != "" then [Text(message)] else [])
      case ItemCompleted(Some(item)) =>
        if item.typ == "agent_message" then
          var message := FirstNonEmpty(item.text, item.message);
          (t, if message != "" then [Text(message)] else [])
        else CompletedItem(t, item)
      case _ => Translated(t, line)
  }

  function EagerRun(model: string, lines: seq<Line>): (Snapshot, seq<Event>) {
    if lines == [] then (Fresh(model), [])
    else
      var (t, out) := EagerRun(model, lines[..|lines| - 1]);
      var (u, events) := Eager(t, lines[|lines| - 1]);
      (u, out + events)
  }

  /** What the user sees of the events, in order: a final text counts as text, the
      session announcement does not count. */
  function Visible(events: seq<Event>): seq<Event> {
    if events == [] then []
    else
      var e := events[|events| - 1];
      Visible(events[..|events| - 1]) +
      if e.System? then [] else if e.FinalText? then [Text(e.content)] else [e]
  }

  lemma {:induction false} VisibleAppend(a: seq<Event>, b: seq<Event>)
    ensures Visible(a + b) == Visible(a) + Visible(b)
  {
    if b == [] {
      assert a + b == a;
    } else {
      VisibleAppend(a, b[..|b| - 1]);
      assert (a + b)[..|a + b| - 1] == a + b[..|b| - 1];
    }
  }

  lemma {:induction false} VisibleSame(events: seq<Event>)
    requires forall i :: 0 <= i < |events| ==> !events[i].System? && !events[i].FinalText?
    ensures Visible(events) == events
  {
    if events != [] {
      VisibleSame(events[..|events| - 1]);
    }
  }

  /** The message still held back, as it will be seen. */
  function HeldBack(t: Snapshot): seq<Event> {
    if t.pending != "" then [Text(t.pending)] else []
  }

  /** Events that are seen as they are. */
  predicate Plain(events: seq<Event>) {
    forall i :: 0 <= i < |events| ==> !events[i].System? && !events[i].FinalText?
  }

  lemma PrependedVisible(t: Snapshot, events: seq<Event>)
    requires Plain(events)
    ensures var (u, out) := Prepended(t, events); Visible(out) + HeldBack(u) == HeldBack(t) + events
    ensures Prepended(t.(pending := ""), events) == (t.(pending := ""), events)
  {
    VisibleSame(Prepended(t, events).1);
  }

  /** Prepending a held-back message, or having sent it before. */
  lemma PrependedStep(t: Snapshot, events: seq<Event>)
    requires Plain(events)
    ensures var (u, out) := Prepended(t, events);
            var (v, eager) := Prepended(t.(pending := ""), events);
            u.(pending := "") == v && Visible(out) + HeldBack(u) == HeldBack(t) + Visible(eager)
  {
    PrependedVisible(t, events);
    VisibleSame(events);
  }

  lemma CompletedToolApart(t: Snapshot, item: Item)
    ensures var (u, events) := CompletedTool(t, item);
            && u.pending == t.pending && Plain(events)
            && CompletedTool(t.(pending := ""), item) == (u.(pending := ""), events)
  {
  }

  lemma ToolStep(t: Snapshot, item: Item)
    requires ToolType(item.typ)
    ensures var (u, out) := CompletedItem(t, item);
            var (v, eager) := CompletedItem(t.(pending := ""), item);
            u.(pending := "") == v && Visible(out) + HeldBack(u) == HeldBack(t) + Visible(eager)
  {
    CompletedToolApart(t, item);
    var (u, events) := CompletedTool(t, item);
    assert HeldBack(u) == HeldBack(t);
    PrependedStep(u, events);
  }

  lemma ThinkingStep(t: Snapshot, item: Item)
    requires item.typ == "reasoning" || item.typ == "plan"
    ensures var (u, out) := CompletedItem(t, item);
            var (v, eager) := CompletedItem(t.(pending := ""), item);
            u.(pending := "") == v && Visible(out) + HeldBack(u) == HeldBack(t) + Visible(eager)
  {
    if item.text != "" {
      PrependedStep(t, [Thinking(item.text)]);
    } else {
      assert [] + HeldBack(t) == HeldBack(t) + [];
    }
  }

  lemma CompletedItemStep(t: Snapshot, item: Item)
    requires item.typ != "agent_message"
    ensures var (u, out) := CompletedItem(t, item);
            var (v, eager) := CompletedItem(t.(pending := ""), item);
            u.(pending := "") == v && Visible(out) + HeldBack(u) == HeldBack(t) + Visible(eager)
  {
    if item.typ == "reasoning" || item.typ == "plan" {
      ThinkingStep(t, item);
    } else if ToolType(item.typ) {
      ToolStep(t, item);
    }
  }

  lemma MessageStep(t: Snapshot, message: string)
    requires message != ""
    ensures var (u, out) := Queued(t, message);
            Visible(out) + HeldBack(u) == HeldBack(t) + Visible([Text(message)])
  {
    VisibleSame(Queued(t, message).1);
    VisibleSame([Text(message)]);
  }

  lemma VisibleFinal(content: string, tail: seq<Event>)
    ensures Visible([FinalText(content)] + tail) == [Text(content)] + Visible(tail)
  {
    VisibleAppend([FinalText(content)], tail);
    assert [FinalText(content)][..0] == [];
  }

  lemma FinishedStep(t: Snapshot, usage: Option<UsageData>)
    ensures Visible(Finished(t, usage).1) == HeldBack(t) + Visible(Finished(t.(pending := ""), usage).1)
  {
    var tail := UsageEvents(usage) + [Done("", t.threadId, Normal)];
    assert Finished(t.(pending := ""), usage).1 == tail;
    if t.pending != "" {
      assert Finished(t, usage).1 == [FinalText(t.pending)] + tail;
      VisibleFinal(t.pending, tail);
    }
  }

  lemma EagerStep(t: Snapshot, line: Line)
    ensures var (u, out) := Translated(t, line);
            var (v, eager) := Eager(t.(pending := ""), line);
            && u.(pending := "") == v
            && Visible(out) + HeldBack(u) == HeldBack(t) + Visible(eager)
  {
    if !t.terminal {
      match line
      case Ignored =>
      case ThreadStarted(id) =>
        assert [System("", id, t.model, 0)][..0] == [];
      case ItemStarted(item) =>
        if item.Some? && ToolUseOf(item.value).Some? {
          var use := ToolUseOf(item.value).value;
          PrependedStep(t.(started := t.started[use.id := use.name]), [use]);
        }
      case ItemCompleted(item) =>
        if item.Some? {
          if item.value.typ != "agent_message" {
            CompletedItemStep(t, item.value);
          } else if FirstNonEmpty(item.value.text, item.value.message) != "" {
            MessageStep(t, FirstNonEmpty(item.value.text, item.value.message));
          }
        }
      case AgentMessage(message) =>
        if message != "" {
          MessageStep(t, message);
        }
      case TurnCompleted(usage) =>
        FinishedStep(t, usage);
      case TurnFailed(message) =>
        FailedStep(t, message, "codex turn failed");
      case ErrorLine(message) =>
        FailedStep(t, message, "codex error");
    }
  }

  lemma FailedStep(t: Snapshot, message: string, fallback: string)
    ensures var (u, out) := FailedWith(t, message, fallback);
            var (v, eager) := FailedWith(t.(pending := ""), message, fallback);
            u.(pending := "") == v && u.pending == "" && Visible(out) + HeldBack(u) == HeldBack(t) + Visible(eager)
  {
    var error := [Error(Truncated(FirstNonEmpty(message, fallback)), Failed)];
    PrependedVisible(t.(terminal := true), error);
    VisibleSame(error);
  }

  /** Holding back the newest message is not observable: what is visible, with the
      held-back message at the end, is what would have been sent at once. In
      particular a held-back message comes before every later tool or thinking event. */
  lemma {:induction false} SameAsEager(model: string, lines: seq<Line>)
    ensures var (t, out) := Run(model, lines);
            var (u, eager) := EagerRun(model, lines);
            && t.(pending := "") == u
            && Visible(out) + HeldBack(t) == Visible(eager)
  {
    if lines != [] {
      var before, line := lines[..|lines| - 1], lines[|lines| - 1];
      SameAsEager(model, before);
      var (t, out) := Run(model, before);
      EagerStep(t, line);
      EagerAppend(t, out, EagerRun(model, before).1, line);
    }
  }

  lemma EagerAppend(t: Snapshot, out: seq<Event>, eager: seq<Event>, line: Line)
    requires Visible(out) + HeldBack(t) == Visible(eager)
    requires var (u, more) := Translated(t, line);
             Visible(more) + HeldBack(u) == HeldBack(t) + Visible(Eager(t.(pending := ""), line).1)
    ensures var (u, more) := Translated(t, line);
            Visible(out + more) + HeldBack(u) == Visible(eager + Eager(t.(pending := ""), line).1)
  {
    var (u, more) := Translated(t, line);
    var eagerMore := Eager(t.(pending := ""), line).1;
    VisibleAppend(out, more);
    VisibleAppend(eager, eagerMore);
    Regroup(Visible(out), HeldBack(t), Visible(eager), Visible(more), HeldBack(u), Visible(eagerMore));
  }

  // ----- one ending ---------------------------------------------------------

  predicate Ends(e: Event) {
    e.Done? || e.Error?
  }

  /** At most one done or error event is ever emitted, nothing follows it, it is
      there exactly when the translator is terminal, and then nothing is held back. */
  lemma {:induction false} OneEnding(model: string, lines: seq<Line>)
    ensures var (t, out) := Run(model, lines);
            && (forall i :: 0 <= i < |out| && Ends(out[i]) ==> i == |out| - 1 && t.terminal)
            && (t.terminal ==> out != [] && Ends(out[|out| - 1]) && t.pending == "")
  {
    if lines != [] {
      var before, line := lines[..|lines| - 1], lines[|lines| - 1];
      OneEnding(model, before);
      var (t, out) := Run(model, before);
      EndingOfLine(t, line);
      assert t.terminal ==> out + Translated(t, line).1 == out;
    }
  }

  lemma EndingOfLine(t: Snapshot, line: Line)
    ensures var (u, out) := Translated(t, line);
            && (t.terminal ==> u == t && out == [])
            && (!t.terminal ==>
                  && (forall i :: 0 <= i < |out| && Ends(out[i]) ==> i == |out| - 1 && u.terminal)
                  && (u.terminal ==> out != [] && Ends(out[|out| - 1]) && u.pending == ""))
  {
  }

  // ----- from Codex lines to the card ---------------------------------------

  /** The non-empty agent messages of a run, in order, up to its end. */
  function MessagesOf(model: string, lines: seq<Line>): seq<string> {
    if lines == [] then []
    else
      var before, line := lines[..|lines| - 1], lines[|lines| - 1];
      MessagesOf(model, before) + if Run(model, before).0.terminal then [] else MessageOf(line)
  }

  function MessageOf(line: Line): seq<string> {
    match line
    case AgentMessage(message) => if message != "" then [message] else []
    case ItemCompleted(Some(item)) =>
      if item.typ == "agent_message" && FirstNonEmpty(item.text, item.message) != ""
      then [FirstNonEmpty(item.text, item.message)] else []
    case _ => []
  }

  /** The messages an event list carries, in order. */
  function Carried(events: seq<Event>): seq<string> {
    if events == [] then []
    else
      var e := events[|events| - 1];
      Carried(events[..|events| - 1]) + if e.Text? then [e.delta] else if e.FinalText? then [e.content] else []
  }

  lemma {:induction false} CarriedAppend(a: seq<Event>, b: seq<Event>)
    ensures Carried(a + b) == Carried(a) + Carried(b)
  {
    if b == [] {
      assert a + b == a;
    } else {
      CarriedAppend(a, b[..|b| - 1]);
      assert (a + b)[..|a + b| - 1] == a + b[..|b| - 1];
    }
  }

  function PendingOf(t: Snapshot): seq<string> {
    if t.pending != "" then [t.pending] else []
  }

  lemma {:induction false} CarriedNone(events: seq<Event>)
    requires forall i :: 0 <= i < |events| ==> !events[i].Text? && !events[i].FinalText?
    ensures Carried(events) == []
  {
    if events != [] {
      CarriedNone(events[..|events| - 1]);
    }
  }

  lemma CarriedFirst(e: Event, events: seq<Event>)
    requires e.Text? || e.FinalText?
    requires forall i :: 0 <= i < |events| ==> !events[i].Text? && !events[i].FinalText?
    ensures Carried([e] + events) == [if e.Text? then e.delta else e.content]
  {
    CarriedNone(events);
    CarriedAppend([e], events);
    assert [e][..0] == [];
  }

  /** In the events of one line only the first can carry a message. */
  lemma MessageComesFirst(t: Snapshot, line: Line)
    ensures forall i :: 1 <= i < |Translated(t, line).1| ==>
              !Translated(t, line).1[i].Text? && !Translated(t, line).1[i].FinalText?
  {
  }

  /** The message a line makes visible: the one held back so far, or none. */
  lemma MessageOfLine(t: Snapshot, line: Line)
    ensures var (u, out) := Translated(t, line);
            if out != [] && (out[0].Text? || out[0].FinalText?) then
              && PendingOf(t) == [if out[0].Text? then out[0].delta else out[0].content]
              && PendingOf(u) == if t.terminal then [] else MessageOf(line)
            else
              PendingOf(u) == PendingOf(t) + if t.terminal then [] else MessageOf(line)
  {
  }

  lemma CarriedByLine(t: Snapshot, line: Line)
    ensures var (u, out) := Translated(t, line);
            Carried(out) + PendingOf(u) == PendingOf(t) + if t.terminal then [] else MessageOf(line)
  {
    var (u, out) := Translated(t, line);
    MessageComesFirst(t, line);
    MessageOfLine(t, line);
    CarriedThenHeld(out, PendingOf(t), PendingOf(u), if t.terminal then [] else MessageOf(line));
  }

  /** Either the message held so far leads the events, or it stays. */
  lemma CarriedThenHeld(out: seq<Event>, held: seq<string>, kept: seq<string>, added: seq<string>)
    requires forall i :: 1 <= i < |out| ==> !out[i].Text? && !out[i].FinalText?
    requires if out != [] && (out[0].Text? || out[0].FinalText?)
             then held == [if out[0].Text? then out[0].delta else out[0].content] && kept == added
             else kept == held + added
    ensures Carried(out) + kept == held + added
  {
    if out != [] && (out[0].Text? || out[0].FinalText?) {
      CarriedLed(out);
    } else {
      CarriedNone(out);
      assert [] + kept == kept;
    }
  }

  lemma CarriedLed(out: seq<Event>)
    requires out != [] && (out[0].Text? || out[0].FinalText?)
    requires forall i :: 1 <= i < |out| ==> !out[i].Text? && !out[i].FinalText?
    ensures Carried(out) == [if out[0].Text? then out[0].delta else out[0].content]
  {
    CarriedFirst(out[0], out[1..]);
    assert [out[0]] + out[1..] == out;
  }

  /** Every message is emitted exactly once, in order, the newest possibly still
      held back. */
  lemma {:induction false} MessagesConserved(model: string, lines: seq<Line>)
    ensures var (t, out) := Run(model, lines);
            Carried(out) + PendingOf(t) == MessagesOf(model, lines)
  {
    if lines != [] {
      var before, line := lines[..|lines| - 1], lines[|lines| - 1];
      MessagesConserved(model, before);
      var (t, out) := Run(model, before);
      var (u, more) := Translated(t, line);
      CarriedByLine(t, line);
      CarriedAppend(out, more);
      Regroup(Carried(out), PendingOf(t), MessagesOf(model, before), Carried(more), PendingOf(u),
              if t.terminal then [] else MessageOf(line));
    }
  }

  ghost predicate NoFinal(events: seq<Event>) {
    forall i :: 0 <= i < |events| ==> !events[i].FinalText?
  }

  /** Once a final text was emitted, no message follows. */
  ghost predicate FinalIsLast(events: seq<Event>) {
    forall i, j :: 0 <= i < j < |events| && events[i].FinalText? ==> !events[j].Text? && !events[j].FinalText?
  }

  lemma FinalAppend(out: seq<Event>, more: seq<Event>)
    requires NoFinal(out)
    requires forall j :: 1 <= j < |more| ==> !more[j].Text? && !more[j].FinalText?
    ensures FinalIsLast(out + more)
    ensures NoFinal(more) ==> NoFinal(out + more)
  {
    var all := out + more;
    forall i, j | 0 <= i < j < |all| && all[i].FinalText? ensures !all[j].Text? && !all[j].FinalText? {
      assert i >= |out| && all[j] == more[j - |out|];
    }
  }

  lemma FinalOnlyAtEnd(t: Snapshot, line: Line)
    ensures t.terminal ==> Translated(t, line).1 == []
    ensures !Translated(t, line).0.terminal ==> NoFinal(Translated(t, line).1)
  {
  }

  /** A final text is only emitted when the turn ends. */
  lemma {:induction false} FinalTextEndsTurn(model: string, lines: seq<Line>)
    ensures var (t, out) := Run(model, lines); (!t.terminal ==> NoFinal(out)) && FinalIsLast(out)
  {
    if lines != [] {
      var before, line := lines[..|lines| - 1], lines[|lines| - 1];
      var (t, out) := Run(model, before);
      FinalTextEndsTurn(model, before);
      FinalOnlyAtEnd(t, line);
      if t.terminal {
        assert out + [] == out;
      } else {
        MessageComesFirst(t, line);
        FinalAppend(out, Translated(t, line).1);
      }
    }
  }

  /** What the card shows of the agent's words: its text blocks, then the final text. */
  ghost function Words(events: seq<Event>): string {
    AllText(Fold(events).blocks) + Fold(events).fields.finalText
  }

  lemma {:induction false} NoFinalText(events: seq<Event>)
    requires NoFinal(events)
    ensures Fold(events).fields.finalText == ""
  {
    if events != [] {
      NoFinalText(events[..|events| - 1]);
    }
  }

  lemma WordsStep(past: seq<Event>, e: Event)
    requires Words(past) == Flatten(Carried(past))
    requires e.Text? || e.FinalText? ==> Fold(past).fields.finalText == ""
    ensures Words(past + [e]) == Flatten(Carried(past + [e]))
  {
    FoldSnoc(past, e);
    TextStep(Fold(past).blocks, e);
    assert (past + [e])[..|past|] == past;
    if e.Text? || e.FinalText? {
      var said := if e.Text? then e.delta else e.content;
      FlattenSnoc(Carried(past), said);
      assert Words(past) == AllText(Fold(past).blocks);
      assert Words(past + [e]) == Words(past) + said;
    } else {
      assert Carried(past) + [] == Carried(past);
      assert AllText(Fold(past).blocks) + "" == AllText(Fold(past).blocks);
      assert Words(past + [e]) == Words(past);
    }
  }

  lemma {:induction false} WordsAreCarried(events: seq<Event>)
    requires FinalIsLast(events)
    ensures Words(events) == Flatten(Carried(events))
  {
    if events != [] {
      var past, e := events[..|events| - 1], events[|events| - 1];
      WordsAreCarried(past);
      if e.Text? || e.FinalText? {
        assert forall i :: 0 <= i < |past| ==> past[i] == events[i] && !past[i].FinalText?;
        NoFinalText(past);
      }
      WordsStep(past, e);
      assert past + [e] == events;
    }
  }

  /** From lines to card: everything the agent said is on the card, in order and
      once, but for the message still held back; after the end nothing is missing. */
  lemma CardShowsAllMessages(model: string, lines: seq<Line>)
    ensures var (t, out) := Run(model, lines);
            && Words(out) + t.pending == Flatten(MessagesOf(model, lines))
            && (t.terminal ==> Words(out) == Flatten(MessagesOf(model, lines)))
  {
    var (t, out) := Run(model, lines);
    FinalTextEndsTurn(model, lines);
    WordsAreCarried(out);
    MessagesConserved(model, lines);
    OneEnding(model, lines);
    if t.pending != "" {
      FlattenSnoc(Carried(out), t.pending);
    } else {
      assert Carried(out) + [] == Carried(out);
    }
  }
}
