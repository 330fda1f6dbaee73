/** The presentation state of one agent run, folded from its events
    (internal/card/state.go), and the grouping of its blocks for display
    (internal/card/render.go). */
module CardState {
  import opened Common
  import opened AgentEvents

  datatype ToolStatus = ToolRunning | ToolDone | ToolError
  datatype ToolEntry = ToolEntry(id: string, name: string, input: string, status: ToolStatus, output: string)

  datatype Block = TextBlock(content: string, streaming: bool) | ToolBlock(tool: ToolEntry)

  datatype Footer = FooterNone | FooterThinking | FooterToolRunning | FooterStreaming
  datatype Terminal = Running | Completed | Continued | Stopped | Errored | IdleTimeout

  datatype Stats = Stats(
    inputTokens: int, outputTokens: int, cachedInputTokens: int, reasoningOutputTokens: int,
    model: string, sessionId: string, threadId: string, contextWindow: int, usageAvailable: bool)

  /** The fields of a run's state other than its blocks. */
  datatype Fields = Fields(
    finalText: string, reasoning: string, reasoningActive: bool,
    footer: Footer, terminal: Terminal, errorMsg: string, stats: Stats)

  datatype RunState = RunState(blocks: seq<Block>, fields: Fields)

  const INITIAL := RunState([], Fields("", "", false, FooterThinking, Running, "",
                                       Stats(0, 0, 0, 0, "", "", "", 0, false)))

  // ----- the reducer --------------------------------------------------------

  function ClosedBlock(b: Block): Block {
    if b.TextBlock? then b.(streaming := false) else b
  }

  /** `closeStreamingText`. */
  function Closed(blocks: seq<Block>): (r: seq<Block>)
    ensures |r| == |blocks| && forall i :: 0 <= i < |r| ==> r[i] == ClosedBlock(blocks[i])
  {
    seq(|blocks|, i requires 0 <= i < |blocks| => ClosedBlock(blocks[i]))
  }

  function AppendText(blocks: seq<Block>, delta: string): seq<Block> {
    var n := |blocks|;
    if n > 0 && blocks[n - 1].TextBlock? && blocks[n - 1].streaming
    then blocks[n - 1 := TextBlock(blocks[n - 1].content + delta, true)]
    else blocks + [TextBlock(delta, true)]
  }

  function Resolved(t: ToolEntry, output: string, isError: bool): ToolEntry {
    t.(output := output, status := if isError then ToolError else ToolDone)
  }

  function ResolvedBlock(b: Block, id: string, output: string, isError: bool): Block {
    if b.ToolBlock? && b.tool.id == id then ToolBlock(Resolved(b.tool, output, isError)) else b
  }

  /** The tool_result branch: every tool block of that id shows the result. */
  function WithResult(blocks: seq<Block>, id: string, output: string, isError: bool): (r: seq<Block>)
    ensures |r| == |blocks| && forall i :: 0 <= i < |r| ==> r[i] == ResolvedBlock(blocks[i], id, output, isError)
  {
    seq(|blocks|, i requires 0 <= i < |blocks| => ResolvedBlock(blocks[i], id, output, isError))
  }

  function Replace(old_: string, new_: string): string {
    if new_ != "" then new_ else old_
  }

  /** What an event does to the blocks. */
  function BlocksAfter(blocks: seq<Block>, e: Event): seq<Block> {
    match e
    case Text(delta) => AppendText(blocks, delta)
    case ToolUse(id, name, input) => Closed(blocks) + [ToolBlock(ToolEntry(id, name, input, ToolRunning, ""))]
    case ToolResult(id, output, isError) => WithResult(blocks, id, output, isError)
    case Done(_, _, _) => Closed(blocks)
    case _ => blocks
  }

  /** What an event does to the other fields. */
  function FieldsAfter(f: Fields, e: Event): Fields {
    match e
    case Text(_) => f.(reasoningActive := false, footer := FooterStreaming)
    case FinalText(content) => f.(finalText := content)
    case Thinking(delta) => f.(reasoning := f.reasoning + delta, reasoningActive := true, footer := FooterThinking)
    case ToolUse(_, _, _) => f.(reasoningActive := false, footer := FooterToolRunning)
    case ToolResult(_, _, _) => f
    case System(sessionId, threadId, model, contextWindow) =>
      f.(stats := f.stats.(
           model := Replace(f.stats.model, model), sessionId := Replace(f.stats.sessionId, sessionId),
           threadId := Replace(f.stats.threadId, threadId),
           contextWindow := if contextWindow > 0 then contextWindow else f.stats.contextWindow))
    case AskUser(_) => f
    case Usage(input, output, cached, reasoning) =>
      f.(stats := f.stats.(inputTokens := input, outputTokens := output, cachedInputTokens := cached,
                           reasoningOutputTokens := reasoning, usageAvailable := true))
    case Error(message, reason) =>
      f.(terminal := if reason.Interrupted? then Stopped else if reason.Timeout? then IdleTimeout else Errored,
         errorMsg := if reason.Interrupted? || reason.Timeout? then f.errorMsg else message,
         footer := FooterNone)
    case Done(sessionId, threadId, reason) =>
      f.(reasoningActive := false,
         stats := f.stats.(sessionId := Replace(f.stats.sessionId, sessionId),
                           threadId := Replace(f.stats.threadId, threadId)),
         terminal := if reason.Interrupted? then Stopped else if reason.Timeout? then IdleTimeout else Completed,
         footer := FooterNone)
  }

  function Reduce(s: RunState, e: Event): RunState {
    RunState(BlocksAfter(s.blocks, e), FieldsAfter(s.fields, e))
  }

  function Fold(events: seq<Event>): RunState {
    if events == [] then INITIAL else Reduce(Fold(events[..|events| - 1]), events[|events| - 1])
  }

  function Marked(s: RunState, terminal: Terminal): RunState {
    RunState(Closed(s.blocks), s.fields.(reasoningActive := false, terminal := terminal, footer := FooterNone))
  }

  /** The choice at the end of a run: watchdog, stop, or plain completion. */
  function Finalized(s: RunState, idleFired: bool, stopped: bool): RunState {
    if s.fields.terminal != Running then s
    else Marked(s, if idleFired then IdleTimeout else if stopped then Stopped else Completed)
  }

  /** Whether the rendered card still streams. */
  predicate StreamingMode(s: RunState) {
    s.fields.terminal == Running
  }

  // ----- a reference for the blocks, by position in the event list -----------

  /** Events after which text starts a new block. */
  predicate Barrier(e: Event) {
    e.ToolUse? || e.Done?
  }

  /** Text was seen since the last barrier. */
  ghost predicate Open(events: seq<Event>) {
    exists i :: 0 <= i < |events| && events[i].Text? && forall k :: i < k < |events| ==> !Barrier(events[k])
  }

  /** Event `i` begins a block of its own. */
  ghost predicate Starts(events: seq<Event>, i: nat)
    requires i < |events|
  {
    events[i].ToolUse? || (events[i].Text? && !Open(events[..i]))
  }

  ghost function BlockCount(events: seq<Event>): nat {
    if events == [] then 0
    else BlockCount(events[..|events| - 1]) + if Starts(events, |events| - 1) then 1 else 0
  }

  /** The block that event `i` begins or extends. */
  ghost function BlockOf(events: seq<Event>, i: nat): int
    requires i < |events|
  {
    BlockCount(events[..i + 1]) - 1
  }

  /** All text of block `b`. */
  ghost function TextOf(events: seq<Event>, b: int): string {
    if events == [] then ""
    else
      var n := |events| - 1;
      TextOf(events[..n], b) + if events[n].Text? && BlockOf(events, n) == b then events[n].delta else ""
  }

  /** The last result for `id` at or after position `from`. */
  ghost function LastResult(events: seq<Event>, from: nat, id: string): Option<(string, bool)> {
    if |events| <= from then None
    else
      var e := events[|events| - 1];
      if e.ToolResult? && e.id == id then Some((e.output, e.isError))
      else LastResult(events[..|events| - 1], from, id)
  }

  /** What the card must show for the tool use at position `i`. */
  ghost function ShownTool(events: seq<Event>, i: nat): ToolEntry
    requires i < |events| && events[i].ToolUse?
  {
    var use := events[i];
    match LastResult(events, i + 1, use.id)
    case None => ToolEntry(use.id, use.name, use.input, ToolRunning, "")
    case Some((output, isError)) =>
      ToolEntry(use.id, use.name, use.input, if isError then ToolError else ToolDone, output)
  }

  lemma {:induction false} OpenSnoc(events: seq<Event>, e: Event)
    ensures Open(events + [e]) <==> e.Text? || (Open(events) && !Barrier(e))
  {
    var all := events + [e];
    if e.Text? {
      assert all[|events|].Text?;
    }
    if Open(events) && !Barrier(e) {
      var i :| 0 <= i < |events| && events[i].Text? && forall k :: i < k < |events| ==> !Barrier(events[k]);
      assert all[i].Text? && forall k :: i < k < |all| ==> !Barrier(all[k]);
    }
    if Open(all) {
      var i :| 0 <= i < |all| && all[i].Text? && forall k :: i < k < |all| ==> !Barrier(all[k]);
      if i < |events| {
        assert !Barrier(all[|events|]);
        assert events[i].Text? && forall k :: i < k < |events| ==> events[k] == all[k];
      }
    }
  }

  lemma CountSnoc(past: seq<Event>, e: Event)
    ensures BlockCount(past + [e]) == BlockCount(past) + if e.ToolUse? || (e.Text? && !Open(past)) then 1 else 0
    ensures BlockOf(past + [e], |past|) == BlockCount(past + [e]) - 1
  {
    assert (past + [e])[..|past|] == past && (past + [e])[..|past| + 1] == past + [e];
  }

  lemma TextSnoc(past: seq<Event>, e: Event, b: int)
    ensures TextOf(past + [e], b) ==
            if e.Text? && BlockCount(past + [e]) - 1 == b then TextOf(past, b) + e.delta else TextOf(past, b)
  {
    CountSnoc(past, e);
    assert (past + [e])[..|past|] == past;
  }

  lemma BlockOfPast(past: seq<Event>, e: Event, i: nat)
    requires i < |past|
    ensures BlockOf(past + [e], i) == BlockOf(past, i)
  {
    assert (past + [e])[..i + 1] == past[..i + 1];
  }

  // ----- the reducer agrees with the reference ------------------------------

  lemma FoldSnoc(past: seq<Event>, e: Event)
    ensures Fold(past + [e]) == Reduce(Fold(past), e)
    ensures Fold(past + [e]).blocks == BlocksAfter(Fold(past).blocks, e)
  {
    assert (past + [e])[..|past|] == past;
  }

  /** How many blocks there are and which one is being written. */
  ghost predicate ShapeAgrees(events: seq<Event>, blocks: seq<Block>) {
    && |blocks| == BlockCount(events)
    && (Open(events) <==> blocks != [] && blocks[|blocks| - 1].TextBlock? && blocks[|blocks| - 1].streaming)
    && (forall b :: 0 <= b < |blocks| && blocks[b].TextBlock? && blocks[b].streaming ==> b == |blocks| - 1)
  }

  lemma ShapeStep(past: seq<Event>, e: Event, blocks: seq<Block>)
    requires ShapeAgrees(past, blocks)
    ensures ShapeAgrees(past + [e], BlocksAfter(blocks, e))
  {
    OpenSnoc(past, e);
    CountSnoc(past, e);
  }

  lemma {:induction false} ShapeClosedForm(events: seq<Event>)
    ensures ShapeAgrees(events, Fold(events).blocks)
  {
    if events != [] {
      var past, e := events[..|events| - 1], events[|events| - 1];
      assert past + [e] == events;
      ShapeClosedForm(past);
      FoldSnoc(past, e);
      ShapeStep(past, e, Fold(past).blocks);
    }
  }

  /** Every text block holds the deltas that belong to it, in order. */
  ghost predicate ContentAgrees(events: seq<Event>, blocks: seq<Block>) {
    && (forall b :: 0 <= b < |blocks| && blocks[b].TextBlock? ==> blocks[b].content == TextOf(events, b))
    && (forall b :: b >= |blocks| ==> TextOf(events, b) == "")
  }

  /** Events other than text neither add text blocks nor change their content. */
  lemma ContentKept(blocks: seq<Block>, e: Event, b: nat)
    requires !e.Text?
    ensures var after := BlocksAfter(blocks, e);
            && |blocks| <= |after|
            && (b < |after| && after[b].TextBlock? ==>
                  b < |blocks| && blocks[b].TextBlock? && after[b].content == blocks[b].content)
  {
  }

  lemma OtherContentStep(past: seq<Event>, e: Event, blocks: seq<Block>, b: nat)
    requires ContentAgrees(past, blocks) && !e.Text?
    ensures var after := BlocksAfter(blocks, e);
            && (b < |after| && after[b].TextBlock? ==> after[b].content == TextOf(past + [e], b))
            && (b >= |after| ==> TextOf(past + [e], b) == "")
  {
    ContentKept(blocks, e, b);
    TextSnoc(past, e, b);
  }

  lemma TextContentStep(past: seq<Event>, e: Event, blocks: seq<Block>, b: nat)
    requires ShapeAgrees(past, blocks) && ContentAgrees(past, blocks) && e.Text?
    ensures var after := AppendText(blocks, e.delta);
            && (b < |after| && after[b].TextBlock? ==> after[b].content == TextOf(past + [e], b))
            && (b >= |after| ==> TextOf(past + [e], b) == "")
  {
    CountSnoc(past, e);
    TextSnoc(past, e, b);
    assert "" + e.delta == e.delta;
  }

  lemma ContentStep(past: seq<Event>, e: Event, blocks: seq<Block>)
    requires ShapeAgrees(past, blocks) && ContentAgrees(past, blocks)
    ensures ContentAgrees(past + [e], BlocksAfter(blocks, e))
  {
    var after := BlocksAfter(blocks, e);
    forall b: nat
      ensures b < |after| && after[b].TextBlock? ==> after[b].content == TextOf(past + [e], b)
      ensures b >= |after| ==> TextOf(past + [e], b) == ""
    {
      if e.Text? {
        TextContentStep(past, e, blocks, b);
      } else {
        OtherContentStep(past, e, blocks, b);
      }
    }
  }

  lemma {:induction false} ContentClosedForm(events: seq<Event>)
    ensures ContentAgrees(events, Fold(events).blocks)
  {
    if events != [] {
      var past, e := events[..|events| - 1], events[|events| - 1];
      assert past + [e] == events;
      ContentClosedForm(past);
      ShapeClosedForm(past);
      FoldSnoc(past, e);
      ContentStep(past, e, Fold(past).blocks);
    }
  }

  /** Event `i` is shown in its block. */
  ghost predicate Shown(events: seq<Event>, blocks: seq<Block>, i: nat)
    requires i < |events|
  {
    && (events[i].Text? ==> 0 <= BlockOf(events, i) < |blocks| && blocks[BlockOf(events, i)].TextBlock?)
    && (events[i].ToolUse? ==>
          0 <= BlockOf(events, i) < |blocks| && blocks[BlockOf(events, i)] == ToolBlock(ShownTool(events, i)))
  }

  lemma LastResultSnoc(past: seq<Event>, e: Event, from: nat, id: string)
    requires from <= |past|
    ensures LastResult(past + [e], from, id) ==
            if e.ToolResult? && e.id == id then Some((e.output, e.isError)) else LastResult(past, from, id)
  {
    assert (past + [e])[..|past|] == past;
  }

  lemma ShownStep(past: seq<Event>, e: Event, blocks: seq<Block>, i: nat)
    requires i < |past| && Shown(past, blocks, i)
    ensures Shown(past + [e], BlocksAfter(blocks, e), i)
  {
    BlockOfPast(past, e, i);
    if past[i].ToolUse? {
      LastResultSnoc(past, e, i + 1, past[i].id);
    }
  }

  lemma ShownNew(past: seq<Event>, e: Event, blocks: seq<Block>)
    requires ShapeAgrees(past, blocks)
    ensures Shown(past + [e], BlocksAfter(blocks, e), |past|)
  {
    ShapeStep(past, e, blocks);
    CountSnoc(past, e);
  }

  lemma {:induction false} ShownClosedForm(events: seq<Event>, i: nat)
    requires i < |events|
    ensures Shown(events, Fold(events).blocks, i)
  {
    var past, e := events[..|events| - 1], events[|events| - 1];
    assert past + [e] == events;
    FoldSnoc(past, e);
    if i < |past| {
      ShownClosedForm(past, i);
      ShownStep(past, e, Fold(past).blocks, i);
    } else {
      ShapeClosedForm(past);
      ShownNew(past, e, Fold(past).blocks);
    }
  }

  // ----- main results about the blocks --------------------------------------

  /** Blocks are begun in event order. */
  lemma {:induction false} BlockOfMonotone(events: seq<Event>, i: nat, j: nat)
    requires i < j < |events|
    ensures BlockOf(events, i) <= BlockOf(events, j)
    ensures Starts(events, j) ==> BlockOf(events, i) < BlockOf(events, j)
    decreases j
  {
    var upTo := events[..j + 1];
    assert upTo[..|upTo| - 1] == events[..j] && upTo[|upTo| - 1] == events[j];
    assert Starts(upTo, j) == Starts(events, j) by {
      assert upTo[..j] == events[..j];
    }
    if i < j - 1 {
      BlockOfMonotone(events, i, j - 1);
    }
  }

  /** One tool block per tool use, in the same order, and no other tool block. */
  lemma ToolBlocksMatchToolUses(events: seq<Event>)
    ensures var blocks := Fold(events).blocks;
            && (forall i :: 0 <= i < |events| && events[i].ToolUse? ==>
                  0 <= BlockOf(events, i) < |blocks| && blocks[BlockOf(events, i)] == ToolBlock(ShownTool(events, i)))
            && (forall i, j :: 0 <= i < j < |events| && events[i].ToolUse? && events[j].ToolUse? ==>
                  BlockOf(events, i) < BlockOf(events, j))
            && (forall b :: 0 <= b < |blocks| && blocks[b].ToolBlock? ==>
                  exists i :: 0 <= i < |events| && events[i].ToolUse? && BlockOf(events, i) == b)
  {
    var blocks := Fold(events).blocks;
    forall i | 0 <= i < |events| && events[i].ToolUse?
      ensures 0 <= BlockOf(events, i) < |blocks| && blocks[BlockOf(events, i)] == ToolBlock(ShownTool(events, i))
    {
      ShownClosedForm(events, i);
    }
    forall i, j | 0 <= i < j < |events| && events[i].ToolUse? && events[j].ToolUse?
      ensures BlockOf(events, i) < BlockOf(events, j)
    {
      BlockOfMonotone(events, i, j);
    }
    forall b | 0 <= b < |blocks| && blocks[b].ToolBlock?
      ensures exists i :: 0 <= i < |events| && events[i].ToolUse? && BlockOf(events, i) == b
    {
      var i := ToolOrigin(events, b);
    }
  }

  /** The tool use behind a tool block. */
  lemma {:induction false} ToolOrigin(events: seq<Event>, b: nat) returns (i: nat)
    requires b < |Fold(events).blocks| && Fold(events).blocks[b].ToolBlock?
    ensures i < |events| && events[i].ToolUse? && BlockOf(events, i) == b
  {
    var past, e := events[..|events| - 1], events[|events| - 1];
    assert past + [e] == events;
    FoldSnoc(past, e);
    ShapeClosedForm(past);
    if b < |Fold(past).blocks| {
      i := ToolOrigin(past, b);
      BlockOfPast(past, e, i);
    } else {
      i := |past|;
      CountSnoc(past, e);
    }
  }

  /** Some barrier lies between the positions. */
  ghost predicate BarrierBetween(events: seq<Event>, i: nat, j: nat)
    requires j <= |events|
  {
    exists k :: i < k < j && Barrier(events[k])
  }

  lemma BarrierSnoc(events: seq<Event>, i: nat, j: nat)
    requires i + 1 < j <= |events|
    ensures BarrierBetween(events, i, j) <==> BarrierBetween(events, i, j - 1) || Barrier(events[j - 1])
  {
  }

  /** Up to a later position, either no barrier has been seen and the block of the
      text at `i` is still open, or text will not go to that block any more. */
  lemma {:induction false} SinceText(events: seq<Event>, i: nat, j: nat)
    requires i < j <= |events| && events[i].Text?
    ensures !BarrierBetween(events, i, j) ==>
              Open(events[..j]) && BlockCount(events[..j]) == BlockCount(events[..i + 1])
    ensures BarrierBetween(events, i, j) ==> !Open(events[..j]) || BlockCount(events[..j]) > BlockCount(events[..i + 1])
    ensures BlockCount(events[..j]) >= BlockCount(events[..i + 1])
    decreases j
  {
    if j == i + 1 {
      assert events[..j][i].Text?;
    } else {
      SinceText(events, i, j - 1);
      var past, e := events[..j - 1], events[j - 1];
      assert events[..j] == past + [e];
      OpenSnoc(past, e);
      CountSnoc(past, e);
      BarrierSnoc(events, i, j);
    }
  }

  /** Two text deltas share a block exactly when no tool use and no done event
      lies between them. */
  lemma SharedBlock(events: seq<Event>, i: nat, j: nat)
    requires i < j < |events| && events[i].Text? && events[j].Text?
    ensures BlockOf(events, i) == BlockOf(events, j) <==> !BarrierBetween(events, i, j)
  {
    SinceText(events, i, j);
    var past, e := events[..j], events[j];
    assert events[..j + 1] == past + [e];
    CountSnoc(past, e);
  }

  ghost function AllText(blocks: seq<Block>): string {
    if blocks == [] then ""
    else AllText(blocks[..|blocks| - 1]) + if blocks[|blocks| - 1].TextBlock? then blocks[|blocks| - 1].content else ""
  }

  ghost function AllDeltas(events: seq<Event>): string {
    if events == [] then ""
    else AllDeltas(events[..|events| - 1]) + if events[|events| - 1].Text? then events[|events| - 1].delta else ""
  }

  lemma {:induction false} SameText(blocks: seq<Block>, other: seq<Block>)
    requires |blocks| == |other|
    requires forall i :: 0 <= i < |blocks| ==> blocks[i].TextBlock? == other[i].TextBlock?
    requires forall i :: 0 <= i < |blocks| && blocks[i].TextBlock? ==> blocks[i].content == other[i].content
    ensures AllText(blocks) == AllText(other)
  {
    if blocks != [] {
      SameText(blocks[..|blocks| - 1], other[..|other| - 1]);
    }
  }

  lemma TextStep(blocks: seq<Block>, e: Event)
    ensures AllText(BlocksAfter(blocks, e)) == AllText(blocks) + if e.Text? then e.delta else ""
  {
    var after := BlocksAfter(blocks, e);
    if e.Text? {
      if |after| == |blocks| {
        assert after[..|after| - 1] == blocks[..|blocks| - 1];
      } else {
        assert after[..|blocks|] == blocks;
      }
    } else if e.ToolUse? {
      assert after[..|after| - 1] == Closed(blocks);
      SameText(blocks, Closed(blocks));
    } else {
      SameText(blocks, after);
    }
  }

  lemma TextConservedStep(past: seq<Event>, e: Event)
    requires AllText(Fold(past).blocks) == AllDeltas(past)
    ensures AllText(Fold(past + [e]).blocks) == AllDeltas(past + [e])
  {
    FoldSnoc(past, e);
    TextStep(Fold(past).blocks, e);
    assert (past + [e])[..|past|] == past;
  }

  /** No text is lost, duplicated or reordered on its way to the card. */
  lemma {:induction false} TextConserved(events: seq<Event>)
    ensures AllText(Fold(events).blocks) == AllDeltas(events)
  {
    if events != [] {
      TextConserved(events[..|events| - 1]);
      TextConservedStep(events[..|events| - 1], events[|events| - 1]);
      assert events[..|events| - 1] + [events[|events| - 1]] == events;
    }
  }

  /** Only the last block can still be streaming. */
  lemma StreamingIsLast(events: seq<Event>)
    ensures forall b | 0 <= b < |Fold(events).blocks| && Fold(events).blocks[b].TextBlock?
                       && Fold(events).blocks[b].streaming :: b == |Fold(events).blocks| - 1
    ensures Streaming(Fold(events)) <==> Open(events)
  {
    ShapeClosedForm(events);
  }

  /** Some block is marked as still being written. */
  ghost predicate Streaming(s: RunState) {
    exists b :: 0 <= b < |s.blocks| && s.blocks[b].TextBlock? && s.blocks[b].streaming
  }

  // ----- terminal states ----------------------------------------------------

  function TerminalOf(e: Event): Terminal
    requires e.Done? || e.Error?
  {
    if e.reason.Interrupted? then Stopped
    else if e.reason.Timeout? then IdleTimeout
    else if e.Done? then Completed else Errored
  }

  /** The last done or error event, if any. */
  ghost function LastEnding(events: seq<Event>): Option<nat> {
    if events == [] then None
    else if events[|events| - 1].Done? || events[|events| - 1].Error? then Some(|events| - 1)
    else LastEnding(events[..|events| - 1])
  }

  lemma {:induction false} LastEndingMeaning(events: seq<Event>)
    ensures match LastEnding(events)
            case None => forall k :: 0 <= k < |events| ==> !events[k].Done? && !events[k].Error?
            case Some(i) => i < |events| && (events[i].Done? || events[i].Error?)
                            && forall k :: i < k < |events| ==> !events[k].Done? && !events[k].Error?
  {
    if events != [] {
      LastEndingMeaning(events[..|events| - 1]);
    }
  }

  /** The card's end state is that of the last done or error event, whichever it
      is: a done event after an error hides the error. */
  lemma {:induction false} TerminalClosedForm(events: seq<Event>)
    ensures match LastEnding(events)
            case None => Fold(events).fields.terminal == Running
            case Some(i) => i < |events| && (events[i].Done? || events[i].Error?)
                            && Fold(events).fields.terminal == TerminalOf(events[i])
  {
    if events != [] {
      TerminalClosedForm(events[..|events| - 1]);
      assert Fold(events) == Reduce(Fold(events[..|events| - 1]), events[|events| - 1]);
    }
  }

  /** A done event after an error hides the error. */
  lemma DoneHidesError()
    ensures Fold([Error("boom", Failed)]).fields.terminal == Errored
    ensures Fold([Error("boom", Failed), Done("", "", Normal)]).fields.terminal == Completed
  {
    var one, two := [Error("boom", Failed)], [Error("boom", Failed), Done("", "", Normal)];
    assert one[..0] == [] && two[..1] == one;
  }

  /** No event brings an ended card back to running. */
  lemma TerminalIsFinal(s: RunState, e: Event)
    requires s.fields.terminal != Running
    ensures Reduce(s, e).fields.terminal != Running && !StreamingMode(Reduce(s, e))
  {
  }

  lemma {:induction false} TerminalStaysFinal(past: seq<Event>, future: seq<Event>)
    requires Fold(past).fields.terminal != Running
    ensures Fold(past + future).fields.terminal != Running
  {
    if future == [] {
      assert past + future == past;
    } else {
      var before, e := past + future[..|future| - 1], future[|future| - 1];
      TerminalStaysFinal(past, future[..|future| - 1]);
      assert past + future == before + [e];
      FoldSnoc(before, e);
      TerminalIsFinal(Fold(before), e);
    }
  }

  /** The state shown at the end of a run has ended. Text is left marked as
      streaming exactly when an event had already ended the card and text came
      after the last tool use or done event. */
  lemma FinalizedClosesText(events: seq<Event>, idleFired: bool, stopped: bool)
    ensures Finalized(Fold(events), idleFired, stopped).fields.terminal != Running
    ensures Streaming(Finalized(Fold(events), idleFired, stopped)) <==>
            Fold(events).fields.terminal != Running && Open(events)
  {
    ShapeClosedForm(events);
  }

  /** The case that is missed: an error does not close the text being streamed. */
  lemma ErrorLeavesTextStreaming()
    ensures Streaming(Finalized(Fold([Text("partial"), Error("boom", Failed)]), false, false))
  {
    var one, two := [Text("partial")], [Text("partial"), Error("boom", Failed)];
    assert two[..1] == one && one[..0] == [];
    assert Fold(one).blocks == [TextBlock("partial", true)];
    assert Finalized(Fold(two), false, false).blocks[0] == TextBlock("partial", true);
  }

  // ----- queries and grouping -----------------------------------------------

  /** `LastRunningTool`: the most recent tool block still running. */
  method LastRunningTool(blocks: seq<Block>) returns (tool: Option<ToolEntry>)
    ensures tool.None? <==>
              forall k :: 0 <= k < |blocks| && blocks[k].ToolBlock? ==> blocks[k].tool.status != ToolRunning
    ensures tool.Some? ==>
              exists i :: 0 <= i < |blocks| && blocks[i] == ToolBlock(tool.value) && tool.value.status == ToolRunning
                          && forall k :: i < k < |blocks| && blocks[k].ToolBlock? ==>
                                 blocks[k].tool.status != ToolRunning
  {
    var i := |blocks| - 1;
    while i >= 0
      invariant -1 <= i < |blocks|
      invariant forall k :: i < k < |blocks| && blocks[k].ToolBlock? ==> blocks[k].tool.status != ToolRunning
    {
      if blocks[i].ToolBlock? && blocks[i].tool.status == ToolRunning {
        return Some(blocks[i].tool);
      }
      i := i - 1;
    }
    return None;
  }

  datatype Group = TextGroup(text: string) | ToolGroup(tools: seq<ToolEntry>)

  /** The blocks a group stands for, with the streaming mark forgotten. */
  ghost function Ungroup(g: Group): seq<Block> {
    match g
    case TextGroup(text) => [TextBlock(text, false)]
    case ToolGroup(tools) => seq(|tools|, i requires 0 <= i < |tools| => ToolBlock(tools[i]))
  }

  ghost function UngroupAll(groups: seq<Group>): seq<Block> {
    if groups == [] then [] else UngroupAll(groups[..|groups| - 1]) + Ungroup(groups[|groups| - 1])
  }

  /** There is no tool group at the end that a following tool would belong to. */
  ghost predicate EndsInText(groups: seq<Group>) {
    groups == [] || groups[|groups| - 1].TextGroup?
  }

  /** Tool groups are non-empty and as long as possible. */
  ghost predicate Maximal(groups: seq<Group>) {
    groups == [] ||
    var (front, last) := (groups[..|groups| - 1], groups[|groups| - 1]);
    Maximal(front) && (last.ToolGroup? ==> last.tools != [] && EndsInText(front))
  }

  lemma MaximalSnoc(groups: seq<Group>, g: Group)
    requires Maximal(groups) && (g.ToolGroup? ==> g.tools != [] && EndsInText(groups))
    ensures Maximal(groups + [g])
  {
    assert (groups + [g])[..|groups|] == groups;
  }

  lemma UngroupSnoc(groups: seq<Group>, g: Group)
    ensures UngroupAll(groups + [g]) == UngroupAll(groups) + Ungroup(g)
  {
    assert (groups + [g])[..|groups|] == groups;
  }

  /** What the groups so far and the buffered tools stand for. */
  ghost function Grouped(groups: seq<Group>, toolBuf: seq<ToolEntry>): seq<Block> {
    UngroupAll(groups) + Ungroup(ToolGroup(toolBuf))
  }

  lemma BufferTool(groups: seq<Group>, toolBuf: seq<ToolEntry>, tool: ToolEntry)
    ensures Grouped(groups, toolBuf + [tool]) == Grouped(groups, toolBuf) + [ToolBlock(tool)]
  {
    assert Ungroup(ToolGroup(toolBuf + [tool])) == Ungroup(ToolGroup(toolBuf)) + [ToolBlock(tool)];
  }

  lemma FlushTools(groups: seq<Group>, toolBuf: seq<ToolEntry>)
    ensures Grouped(groups + [ToolGroup(toolBuf)], []) == Grouped(groups, toolBuf)
    ensures UngroupAll(groups + [ToolGroup(toolBuf)]) == Grouped(groups, toolBuf)
  {
    UngroupSnoc(groups, ToolGroup(toolBuf));
  }

  lemma AddText(groups: seq<Group>, text: string)
    ensures Grouped(groups + [TextGroup(text)], []) == Grouped(groups, []) + [TextBlock(text, false)]
  {
    UngroupSnoc(groups, TextGroup(text));
  }

  lemma ClosedSnoc(blocks: seq<Block>, i: nat)
    requires i < |blocks|
    ensures Closed(blocks[..i + 1]) == Closed(blocks[..i]) + [ClosedBlock(blocks[i])]
  {
  }

  /** Groups and buffered tools stand for the blocks done; the next tool is buffered. */
  ghost predicate GroupedSoFar(groups: seq<Group>, toolBuf: seq<ToolEntry>, done: seq<Block>) {
    Grouped(groups, toolBuf) == Closed(done) && Maximal(groups) && EndsInText(groups)
  }

  /** `flushTools`. */
  function Flushed(groups: seq<Group>, toolBuf: seq<ToolEntry>): seq<Group> {
    if |toolBuf| > 0 then groups + [ToolGroup(toolBuf)] else groups
  }

  lemma FlushedSoFar(groups: seq<Group>, toolBuf: seq<ToolEntry>, done: seq<Block>)
    requires GroupedSoFar(groups, toolBuf, done)
    ensures UngroupAll(Flushed(groups, toolBuf)) == Closed(done) && Maximal(Flushed(groups, toolBuf))
  {
    if |toolBuf| > 0 {
      FlushTools(groups, toolBuf);
      MaximalSnoc(groups, ToolGroup(toolBuf));
    } else {
      assert Grouped(groups, []) == UngroupAll(groups);
    }
  }

  lemma ToolGrouped(groups: seq<Group>, toolBuf: seq<ToolEntry>, blocks: seq<Block>, i: nat)
    requires i < |blocks| && blocks[i].ToolBlock? && GroupedSoFar(groups, toolBuf, blocks[..i])
    ensures GroupedSoFar(groups, toolBuf + [blocks[i].tool], blocks[..i + 1])
  {
    ClosedSnoc(blocks, i);
    BufferTool(groups, toolBuf, blocks[i].tool);
  }

  lemma TextGrouped(groups: seq<Group>, toolBuf: seq<ToolEntry>, blocks: seq<Block>, i: nat)
    requires i < |blocks| && blocks[i].TextBlock? && GroupedSoFar(groups, toolBuf, blocks[..i])
    ensures GroupedSoFar(Flushed(groups, toolBuf) + [TextGroup(blocks[i].content)], [], blocks[..i + 1])
  {
    var flushed := Flushed(groups, toolBuf);
    FlushedSoFar(groups, toolBuf, blocks[..i]);
    ClosedSnoc(blocks, i);
    AddText(flushed, blocks[i].content);
    assert Grouped(flushed, []) == UngroupAll(flushed);
    MaximalSnoc(flushed, TextGroup(blocks[i].content));
  }

  /** `groupBlocks`: consecutive tool blocks form one group, every text block its own. */
  method GroupBlocks(blocks: seq<Block>) returns (groups: seq<Group>)
    ensures UngroupAll(groups) == Closed(blocks)
    ensures Maximal(groups)
  {
    groups := [];
    var toolBuf: seq<ToolEntry> := [];
    for i := 0 to |blocks|
      invariant GroupedSoFar(groups, toolBuf, blocks[..i])
    {
      if blocks[i].ToolBlock? {
        ToolGrouped(groups, toolBuf, blocks, i);
        toolBuf := toolBuf + [blocks[i].tool];
      } else {
        TextGrouped(groups, toolBuf, blocks, i);
        if |toolBuf| > 0 {
          groups, toolBuf := groups + [ToolGroup(toolBuf)], [];
        }
        groups := groups + [TextGroup(blocks[i].content)];
      }
    }
    assert blocks[..|blocks|] == blocks;
    FlushedSoFar(groups, toolBuf, blocks);
    if |toolBuf| > 0 {
      groups := groups + [ToolGroup(toolBuf)];
    }
  }

  /** That description leaves no choice: there is only one such grouping. */
  lemma {:induction false} GroupingIsUnique(g: seq<Group>, h: seq<Group>)
    requires Maximal(g) && Maximal(h) && UngroupAll(g) == UngroupAll(h)
    ensures g == h
    decreases |g|
  {
    UngroupEmpty(g);
    UngroupEmpty(h);
    if g != [] {
      SameLastGroup(g[..|g| - 1], g[|g| - 1], h[..|h| - 1], h[|h| - 1]);
      GroupingIsUnique(g[..|g| - 1], h[..|h| - 1]);
      assert g == g[..|g| - 1] + [g[|g| - 1]] && h == h[..|h| - 1] + [h[|h| - 1]];
    }
  }

  lemma UngroupEmpty(g: seq<Group>)
    requires Maximal(g)
    ensures UngroupAll(g) == [] <==> g == []
  {
    if g != [] {
      assert Ungroup(g[|g| - 1]) != [];
    }
  }

  lemma SameLastGroup(g: seq<Group>, last: Group, h: seq<Group>, other: Group)
    requires last.ToolGroup? ==> last.tools != [] && EndsInText(g)
    requires other.ToolGroup? ==> other.tools != [] && EndsInText(h)
    requires UngroupAll(g) + Ungroup(last) == UngroupAll(h) + Ungroup(other)
    ensures last == other && UngroupAll(g) == UngroupAll(h)
  {
    var x, y, u, v := UngroupAll(g), UngroupAll(h), Ungroup(last), Ungroup(other);
    assert u != [] && v != [];
    assert (x + u)[|x + u| - 1] == u[|u| - 1] && (y + v)[|y + v| - 1] == v[|v| - 1];
    if last.ToolGroup? {
      SameLastTools(g, last.tools, h, other.tools);
    }
    assert |u| == |v|;
    assert x == (x + u)[..|x|] && y == (y + v)[..|y|];
  }

  lemma SameLastTools(g: seq<Group>, tools: seq<ToolEntry>, h: seq<Group>, others: seq<ToolEntry>)
    requires EndsInText(g) && EndsInText(h)
    requires UngroupAll(g) + Ungroup(ToolGroup(tools)) == UngroupAll(h) + Ungroup(ToolGroup(others))
    ensures tools == others
  {
    var x, u := UngroupAll(g), Ungroup(ToolGroup(tools));
    var y, v := UngroupAll(h), Ungroup(ToolGroup(others));
    ToolsBeginLater(x, u, y, v);
    ToolsBeginLater(y, v, x, u);
    assert u == (x + u)[|x|..] && v == (y + v)[|y|..];
    SameTools(tools, others);
  }

  /** Tools cannot begin earlier in one reading than in the other: a text would be a tool. */
  lemma ToolsBeginLater(x: seq<Block>, u: seq<Block>, y: seq<Block>, v: seq<Block>)
    requires x + u == y + v && forall k :: 0 <= k < |u| ==> u[k].ToolBlock?
    requires y != [] ==> y[|y| - 1].TextBlock?
    ensures |y| <= |x|
  {
    forall j | |x| <= j < |x + u| ensures (x + u)[j].ToolBlock? {
      assert (x + u)[j] == u[j - |x|];
    }
    if y != [] {
      assert (y + v)[|y| - 1] == y[|y| - 1];
    }
  }

  lemma SameTools(tools: seq<ToolEntry>, others: seq<ToolEntry>)
    requires Ungroup(ToolGroup(tools)) == Ungroup(ToolGroup(others))
    ensures tools == others
  {
    assert |tools| == |Ungroup(ToolGroup(tools))| && |others| == |Ungroup(ToolGroup(others))|;
    forall k | 0 <= k < |tools| ensures tools[k] == others[k] {
      assert Ungroup(ToolGroup(tools))[k] == ToolBlock(tools[k]);
      assert Ungroup(ToolGroup(others))[k] == ToolBlock(others[k]);
    }
  }
}
