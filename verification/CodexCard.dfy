/** What a Codex line does to the card, in terms of the line's own fields
    (internal/agent/codex.go, internal/card/state.go). */
module CodexCard {
  import opened Common
  import opened AgentEvents
  import opened CardState
  import opened CardSummary
  import opened CodexTranslator

  /** The card after a list of lines. */
  ghost function Card(model: string, lines: seq<Line>): RunState {
    Fold(Run(model, lines).1)
  }

  ghost predicate Over(model: string, lines: seq<Line>) {
    Run(model, lines).0.terminal
  }

  lemma RunLine(model: string, lines: seq<Line>, line: Line)
    ensures var (t, out) := Run(model, lines);
            && Run(model, lines + [line]) == (Translated(t, line).0, out + Translated(t, line).1)
  {
    assert (lines + [line])[..|lines|] == lines;
  }

  /** Once the turn is over, no line changes the card. */
  lemma NothingAfterTheEnd(model: string, lines: seq<Line>, line: Line)
    requires Over(model, lines)
    ensures Over(model, lines + [line]) && Card(model, lines + [line]) == Card(model, lines)
  {
    RunLine(model, lines, line);
    assert Run(model, lines).1 + [] == Run(model, lines).1;
  }

  // ----- tools ----------------------------------------------------------------

  /** The name and input under which a tool of each type is announced. */
  ghost predicate IsAnnounced(item: Item, tool: ToolEntry) {
    && tool.id == item.id
    && (item.typ == "command_execution" ==> tool.name == "command_execution" && tool.input == item.command)
    && (item.typ == "file_change" ==> tool.name == "file_change" && tool.input == item.input)
    && (item.typ == "mcp_tool_call" ==>
          && tool.input == item.input
          && (item.server == "" && item.tool == "" ==> tool.name == "mcp")
          && (item.server != "" || item.tool != "" ==> tool.name == "mcp:" + item.server + "/" + item.tool))
    && (item.typ == "web_search" ==> tool.name == "web_search" && tool.input == item.query)
    && (item.typ == "collab_tool_call" ==> tool.name == "collab:" + item.tool && tool.input == item.input)
    && (item.typ == "todo_list" ==> tool.name == "todo_list" && tool.input == item.input)
    && (item.typ == "error" ==> tool.name == "codex_error" && tool.input == "")
  }

  /** What a completed tool of each type shows, and exactly when it shows an error. */
  ghost predicate IsCompleted(item: Item, tool: ToolEntry) {
    && tool.id == item.id && (tool.status == ToolDone || tool.status == ToolError)
    && (item.typ == "command_execution" ==>
          && tool.output == item.output
          && (tool.status == ToolError <==> item.status == "failed" || item.status == "declined" || item.exitCode > 0))
    && (item.typ == "file_change" || item.typ == "collab_tool_call" ==>
          tool.output == item.output && (tool.status == ToolError <==> item.status == "failed"))
    && (item.typ == "mcp_tool_call" && item.failure.Some? ==>
          tool.output == item.failure.value && tool.status == ToolError)
    && (item.typ == "mcp_tool_call" && item.failure.None? ==>
          tool.output == item.output && (tool.status == ToolError <==> item.status == "failed"))
    && (item.typ == "web_search" ==>
          && tool.status == ToolDone
          && tool.output == (if item.output != "" then item.output else item.query))
    && (item.typ == "todo_list" ==> tool.output == item.output && tool.status == ToolDone)
    && (item.typ == "error" ==> tool.output == item.message && tool.status == ToolError)
  }

  const TOOL_TYPES := {"command_execution", "file_change", "mcp_tool_call", "web_search", "collab_tool_call",
                       "todo_list", "error"}

  ghost predicate IsTool(item: Item) {
    item.id != "" && item.typ in TOOL_TYPES
  }

  ghost predicate IsBlockOf(b: Block, id: string) {
    b.ToolBlock? && b.tool.id == id
  }

  /** Some block is the tool's, and every one that is shows the outcome. */
  ghost predicate ShowsCompletion(blocks: seq<Block>, item: Item) {
    && (exists b :: 0 <= b < |blocks| && IsBlockOf(blocks[b], item.id))
    && (forall b :: 0 <= b < |blocks| && IsBlockOf(blocks[b], item.id) ==> IsCompleted(item, blocks[b].tool))
  }

  /** The last block is the tool's, under the name and input of its type. */
  ghost predicate LastIsAnnounced(blocks: seq<Block>, item: Item) {
    && blocks != [] && IsBlockOf(blocks[|blocks| - 1], item.id)
    && IsAnnounced(item, blocks[|blocks| - 1].tool)
  }

  lemma UseOf(item: Item)
    requires IsTool(item)
    ensures ToolUseOf(item).Some?
    ensures var use := ToolUseOf(item).value;
            use.ToolUse? && IsAnnounced(item, ToolEntry(use.id, use.name, use.input, ToolRunning, ""))
  {
  }

  lemma ResultShows(item: Item, tool: ToolEntry)
    requires IsTool(item) && tool.id == item.id
    ensures var e := ResultOf(item);
            e.ToolResult? && e.id == item.id && IsCompleted(item, Resolved(tool, e.output, e.isError))
  {
  }

  /** Everything a completion line emits before its result. */
  ghost function BeforeResult(t: Snapshot, item: Item): seq<Event>
    requires ToolUseOf(item).Some?
  {
    HeldBack(t)
    + (if item.id in t.started then [] else [ToolUseOf(item).value])
  }

  lemma CompletionEvents(t: Snapshot, item: Item)
    requires !t.terminal && IsTool(item)
    ensures ToolUseOf(item).Some?
    ensures Translated(t, ItemCompleted(Some(item))).1 == BeforeResult(t, item) + [ResultOf(item)]
    ensures !Translated(t, ItemCompleted(Some(item))).0.terminal
  {
    UseOf(item);
  }

  /** When the result comes, the tool is open; unannounced, it is the last block. */
  lemma ToolIsThere(out: seq<Event>, t: Snapshot, item: Item)
    requires IsTool(item) && OpenTools(out) == t.started.Keys && ToolUseOf(item).Some?
    ensures item.id in RunningIds(Fold(out + BeforeResult(t, item)).blocks)
    ensures item.id !in t.started ==> LastIsAnnounced(Fold(out + BeforeResult(t, item)).blocks, item)
  {
    var said := out + HeldBack(t);
    SaidKeepsOpen(out, t);
    CardShowsOpenTools(out + BeforeResult(t, item));
    if item.id in t.started {
      assert out + BeforeResult(t, item) == said;
    } else {
      assert out + BeforeResult(t, item) == said + [ToolUseOf(item).value];
      AnnouncedOnCard(said, item);
    }
  }

  lemma AnnouncedOnCard(said: seq<Event>, item: Item)
    requires IsTool(item) && ToolUseOf(item).Some?
    ensures var announced := said + [ToolUseOf(item).value];
            && item.id in OpenTools(announced) && LastIsAnnounced(Fold(announced).blocks, item)
            && Fold(announced).blocks[|Fold(announced).blocks| - 1].tool.status == ToolRunning
            && Fold(announced).blocks[|Fold(announced).blocks| - 1].tool.output == ""
  {
    UseOf(item);
    OpenToolsSnoc(said, ToolUseOf(item).value);
    FoldSnoc(said, ToolUseOf(item).value);
  }

  lemma SaidKeepsOpen(out: seq<Event>, t: Snapshot)
    ensures OpenTools(out + HeldBack(t)) == OpenTools(out)
  {
    if t.pending != "" {
      OpenToolsSnoc(out, Text(t.pending));
    } else {
      assert out + [] == out;
    }
  }

  /** After a completion line, every block of the tool shows the item's outcome, and
      there is one. A tool the card did not show as running is announced first: it is
      the last block, under the name and input of its type. */
  lemma CompletionIsShown(model: string, lines: seq<Line>, item: Item)
    requires !Over(model, lines) && IsTool(item)
    ensures var blocks := Card(model, lines + [ItemCompleted(Some(item))]).blocks;
            && ShowsCompletion(blocks, item)
            && (item.id !in RunningIds(Card(model, lines).blocks) ==> LastIsAnnounced(blocks, item))
  {
    var (t, out) := Run(model, lines);
    RunKeepsTools(model, lines);
    CardShowsOpenTools(out);
    CompletionFolds(model, lines, item);
    ToolIsThere(out, t, item);
    ResultOnCard(Fold(out + BeforeResult(t, item)).blocks, item);
  }

  lemma CompletionFolds(model: string, lines: seq<Line>, item: Item)
    requires !Over(model, lines) && IsTool(item)
    ensures ToolUseOf(item).Some?
    ensures var (t, out) := Run(model, lines);
            Card(model, lines + [ItemCompleted(Some(item))]).blocks
            == BlocksAfter(Fold(out + BeforeResult(t, item)).blocks, ResultOf(item))
  {
    var (t, out) := Run(model, lines);
    RunLine(model, lines, ItemCompleted(Some(item)));
    CompletionEvents(t, item);
    var before := out + BeforeResult(t, item);
    assert out + (BeforeResult(t, item) + [ResultOf(item)]) == before + [ResultOf(item)];
    FoldSnoc(before, ResultOf(item));
  }

  lemma ResultOnCard(before: seq<Block>, item: Item)
    requires IsTool(item) && item.id in RunningIds(before)
    ensures var blocks := BlocksAfter(before, ResultOf(item));
            ShowsCompletion(blocks, item) && (LastIsAnnounced(before, item) ==> LastIsAnnounced(blocks, item))
  {
    var blocks := BlocksAfter(before, ResultOf(item));
    forall b | 0 <= b < |before| && IsBlockOf(before[b], item.id)
      ensures IsBlockOf(blocks[b], item.id) && IsCompleted(item, blocks[b].tool)
      ensures IsAnnounced(item, before[b].tool) ==> IsAnnounced(item, blocks[b].tool)
    {
      ResultShows(item, before[b].tool);
    }
    ResultShows(item, ToolEntry(item.id, "", "", ToolRunning, ""));
    var b :| 0 <= b < |before| && before[b].ToolBlock? && before[b].tool.status == ToolRunning
             && before[b].tool.id == item.id;
    assert IsBlockOf(before[b], item.id);
  }

  /** A started tool is the last block of the card, running, under the name and input of
      its type. */
  lemma StartIsShown(model: string, lines: seq<Line>, item: Item)
    requires !Over(model, lines) && IsTool(item)
    ensures var blocks := Card(model, lines + [ItemStarted(Some(item))]).blocks;
            && LastIsAnnounced(blocks, item)
            && blocks[|blocks| - 1].tool.status == ToolRunning && blocks[|blocks| - 1].tool.output == ""
  {
    var (t, out) := Run(model, lines);
    RunLine(model, lines, ItemStarted(Some(item)));
    StartEvents(t, out, item);
    AnnouncedOnCard(out + HeldBack(t), item);
  }

  lemma StartEvents(t: Snapshot, out: seq<Event>, item: Item)
    requires !t.terminal && IsTool(item)
    ensures ToolUseOf(item).Some?
    ensures out + Translated(t, ItemStarted(Some(item))).1 == (out + HeldBack(t)) + [ToolUseOf(item).value]
  {
    UseOf(item);
  }

  /** An item without id, or of a type that is no tool, announces nothing. */
  lemma NoToolNoBlock(model: string, lines: seq<Line>, item: Item)
    requires !IsTool(item)
    ensures Card(model, lines + [ItemStarted(Some(item))]) == Card(model, lines)
    ensures item.typ !in {"agent_message", "reasoning", "plan"} ==>
              Card(model, lines + [ItemCompleted(Some(item))]) == Card(model, lines)
  {
    RunLine(model, lines, ItemStarted(Some(item)));
    RunLine(model, lines, ItemCompleted(Some(item)));
    assert Run(model, lines).1 + [] == Run(model, lines).1;
  }

  // ----- the other lines ------------------------------------------------------

  /** The thread and the model are noted. */
  lemma ThreadIsShown(model: string, lines: seq<Line>, id: string)
    requires !Over(model, lines) && id != ""
    ensures var (before, after) := (Card(model, lines), Card(model, lines + [ThreadStarted(id)]));
            && after.fields.stats.threadId == id
            && after.fields.stats.model == (if model != "" then model else before.fields.stats.model)
            && after.blocks == before.blocks
  {
    RunLine(model, lines, ThreadStarted(id));
    ModelStays(model, lines);
    FoldSnoc(Run(model, lines).1, System("", id, model, 0));
  }

  lemma {:induction false} ModelStays(model: string, lines: seq<Line>)
    ensures Run(model, lines).0.model == model
  {
    if lines != [] {
      ModelStays(model, lines[..|lines| - 1]);
    }
  }

  /** Reasoning is appended, whatever was held back. */
  lemma ReasoningIsShown(model: string, lines: seq<Line>, item: Item)
    requires !Over(model, lines) && item.typ in {"reasoning", "plan"}
    ensures Card(model, lines + [ItemCompleted(Some(item))]).fields.reasoning ==
            Card(model, lines).fields.reasoning + item.text
  {
    var (t, out) := Run(model, lines);
    RunLine(model, lines, ItemCompleted(Some(item)));
    if item.text == "" {
      assert out + [] == out;
      assert Card(model, lines).fields.reasoning + "" == Card(model, lines).fields.reasoning;
    } else {
      var said := out + HeldBack(t);
      assert out + Translated(t, ItemCompleted(Some(item))).1 == said + [Thinking(item.text)];
      FoldSnoc(said, Thinking(item.text));
      SaidKeepsFields(out, t);
    }
  }

  lemma SaidKeepsFields(out: seq<Event>, t: Snapshot)
    ensures var (f, g) := (Fold(out).fields, Fold(out + HeldBack(t)).fields);
            && g.reasoning == f.reasoning && g.errorMsg == f.errorMsg && g.stats == f.stats
            && g.finalText == f.finalText && g.terminal == f.terminal
  {
    if t.pending != "" {
      FoldSnoc(out, Text(t.pending));
    } else {
      assert out + [] == out;
    }
  }

  /** A completed turn ends the card as completed, shows the message held back as the
      final text, and the usage of the line if it has one. */
  lemma CompletedTurnIsShown(model: string, lines: seq<Line>, usage: Option<UsageData>)
    requires !Over(model, lines)
    ensures Over(model, lines + [TurnCompleted(usage)])
    ensures var (before, after) := (Card(model, lines).fields, Card(model, lines + [TurnCompleted(usage)]).fields);
            && after.terminal == Completed
            && (Run(model, lines).0.pending != "" ==> after.finalText == Run(model, lines).0.pending)
            && (usage.Some? ==>
                  && after.stats.usageAvailable
                  && after.stats.inputTokens == usage.value.input && after.stats.outputTokens == usage.value.output
                  && after.stats.cachedInputTokens == usage.value.cached
                  && after.stats.reasoningOutputTokens == usage.value.reasoning)
            && (usage.None? ==>
                  && after.stats.usageAvailable == before.stats.usageAvailable
                  && after.stats.inputTokens == before.stats.inputTokens)
  {
    var (t, out) := Run(model, lines);
    RunLine(model, lines, TurnCompleted(usage));
    var last := out + if t.pending != "" then [FinalText(t.pending)] else [];
    var used := last + UsageEvents(usage);
    assert out + Translated(t, TurnCompleted(usage)).1 == used + [Done("", t.threadId, Normal)];
    FinalTextOnCard(out, t.pending);
    UsageOnCard(last, usage);
    DoneOnCard(used, t.threadId);
  }

  lemma DoneOnCard(used: seq<Event>, threadId: string)
    ensures var (f, g) := (Fold(used).fields, Fold(used + [Done("", threadId, Normal)]).fields);
            && g.terminal == Completed && g.finalText == f.finalText
            && g.stats.usageAvailable == f.stats.usageAvailable
            && g.stats.inputTokens == f.stats.inputTokens && g.stats.outputTokens == f.stats.outputTokens
            && g.stats.cachedInputTokens == f.stats.cachedInputTokens
            && g.stats.reasoningOutputTokens == f.stats.reasoningOutputTokens
  {
    FoldSnoc(used, Done("", threadId, Normal));
  }

  lemma FinalTextOnCard(out: seq<Event>, pending: string)
    ensures var last := out + if pending != "" then [FinalText(pending)] else [];
            Fold(last).fields == if pending != "" then Fold(out).fields.(finalText := pending) else Fold(out).fields
  {
    if pending != "" {
      FoldSnoc(out, FinalText(pending));
    } else {
      assert out + [] == out;
    }
  }

  lemma UsageOnCard(last: seq<Event>, usage: Option<UsageData>)
    ensures var (f, g) := (Fold(last).fields, Fold(last + UsageEvents(usage)).fields);
            && g.finalText == f.finalText
            && (usage.None? ==> g.stats == f.stats)
            && (usage.Some? ==>
                  && g.stats.usageAvailable
                  && g.stats.inputTokens == usage.value.input && g.stats.outputTokens == usage.value.output
                  && g.stats.cachedInputTokens == usage.value.cached
                  && g.stats.reasoningOutputTokens == usage.value.reasoning)
  {
    if usage.Some? {
      FoldSnoc(last, UsageEvents(usage)[0]);
    } else {
      assert last + [] == last;
    }
  }

  /** A failure ends the card with an error, and shows its message or the default,
      no longer than the limit. */
  lemma FailureIsShown(model: string, lines: seq<Line>, message: string, turn: bool)
    requires !Over(model, lines)
    ensures var line := if turn then TurnFailed(message) else ErrorLine(message);
            var shown := if message != "" then message else if turn then "codex turn failed" else "codex error";
            var f := Card(model, lines + [line]).fields;
            && Over(model, lines + [line]) && f.terminal == Errored
            && f.errorMsg <= shown && (|shown| <= 4096 ==> f.errorMsg == shown)
            && (|shown| > 4096 ==> |f.errorMsg| == 4096)
  {
    var (t, out) := Run(model, lines);
    var line := if turn then TurnFailed(message) else ErrorLine(message);
    RunLine(model, lines, line);
    var said := out + HeldBack(t);
    var shown := FirstNonEmpty(message, if turn then "codex turn failed" else "codex error");
    assert out + Translated(t, line).1 == said + [Error(Truncated(shown), Failed)];
    ErrorOnCard(said, shown);
  }

  lemma ErrorOnCard(said: seq<Event>, shown: string)
    ensures var f := Fold(said + [Error(Truncated(shown), Failed)]).fields;
            && f.terminal == Errored && f.errorMsg <= shown
            && (|shown| <= 4096 ==> f.errorMsg == shown) && (|shown| > 4096 ==> |f.errorMsg| == 4096)
  {
    FoldSnoc(said, Error(Truncated(shown), Failed));
  }
}
