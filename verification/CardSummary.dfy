/** What the shown state of a run says about the run's events, field by field and
    block by block (internal/card/state.go), also once it was marked as ended. */
module CardSummary {
  import opened Common
  import opened AgentEvents
  import opened CardState

  // ----- fields: the last event that sets one decides -------------------------

  ghost predicate IsLast(events: seq<Event>, i: int, sets: Event -> bool) {
    0 <= i < |events| && sets(events[i]) && forall k :: i < k < |events| ==> !sets(events[k])
  }

  ghost predicate Nowhere(events: seq<Event>, sets: Event -> bool) {
    forall k :: 0 <= k < |events| ==> !sets(events[k])
  }

  /** A field that every event either sets or leaves alone holds what the last
      event that sets it said. */
  lemma {:induction false} LastWins<T>(events: seq<Event>, field: Fields -> T, sets: Event -> bool, value: Event -> T)
    requires forall f, e :: field(FieldsAfter(f, e)) == if sets(e) then value(e) else field(f)
    ensures Nowhere(events, sets) ==> field(Fold(events).fields) == field(INITIAL.fields)
    ensures forall i :: IsLast(events, i, sets) ==> field(Fold(events).fields) == value(events[i])
  {
    if events != [] {
      var past, e := events[..|events| - 1], events[|events| - 1];
      assert past + [e] == events;
      LastWins(past, field, sets, value);
      FoldSnoc(past, e);
      assert !sets(e) ==> forall i :: IsLast(events, i, sets) ==> IsLast(past, i, sets);
    }
  }

  predicate HasFinalText(e: Event) { e.FinalText? }

  predicate HasUsage(e: Event) { e.Usage? }

  /** An error that is neither an interruption nor a timeout. */
  predicate HasMessage(e: Event) { e.Error? && !e.reason.Interrupted? && !e.reason.Timeout? }

  predicate HasModel(e: Event) { e.System? && e.model != "" }

  predicate HasWindow(e: Event) { e.System? && e.contextWindow > 0 }

  predicate HasSession(e: Event) { (e.System? || e.Done?) && e.sessionId != "" }

  predicate HasThread(e: Event) { (e.System? || e.Done?) && e.threadId != "" }

  predicate MovesFooter(e: Event) { e.Text? || e.Thinking? || e.ToolUse? || e.Done? || e.Error? }

  predicate MovesReasoning(e: Event) { e.Text? || e.Thinking? || e.ToolUse? || e.Done? }

  lemma FinalTextIsLast(events: seq<Event>)
    ensures Nowhere(events, HasFinalText) ==> Fold(events).fields.finalText == ""
    ensures forall i :: IsLast(events, i, HasFinalText) ==> Fold(events).fields.finalText == events[i].content
  {
    LastWins(events, (f: Fields) => f.finalText, HasFinalText, (e: Event) => if e.FinalText? then e.content else "");
  }

  /** The error shown is that of the last failure; stops and timeouts show none. */
  lemma ErrorIsLast(events: seq<Event>)
    ensures Nowhere(events, HasMessage) ==> Fold(events).fields.errorMsg == ""
    ensures forall i :: IsLast(events, i, HasMessage) ==> Fold(events).fields.errorMsg == events[i].message
  {
    LastWins(events, (f: Fields) => f.errorMsg, HasMessage, (e: Event) => if e.Error? then e.message else "");
  }

  /** The token counts are those of the last usage report, not a sum. */
  lemma UsageIsLast(events: seq<Event>)
    ensures var s := Fold(events).fields.stats;
            && (s.usageAvailable <==> !Nowhere(events, HasUsage))
            && (Nowhere(events, HasUsage) ==>
                  s.inputTokens == s.outputTokens == s.cachedInputTokens == s.reasoningOutputTokens == 0)
    ensures forall i :: IsLast(events, i, HasUsage) ==>
              var (s, e) := (Fold(events).fields.stats, events[i]);
              && s.inputTokens == e.inputTokens && s.outputTokens == e.outputTokens
              && s.cachedInputTokens == e.cachedInputTokens && s.reasoningOutputTokens == e.reasoningOutputTokens
  {
    LastWins(events,
             (f: Fields) => (f.stats.usageAvailable, f.stats.inputTokens, f.stats.outputTokens,
                             f.stats.cachedInputTokens, f.stats.reasoningOutputTokens),
             HasUsage,
             (e: Event) => if e.Usage? then (true, e.inputTokens, e.outputTokens, e.cachedInputTokens,
                                             e.reasoningOutputTokens)
                           else (false, 0, 0, 0, 0));
    if !Nowhere(events, HasUsage) {
      var i := LastPosition(events, HasUsage);
    }
  }

  lemma {:induction false} LastPosition(events: seq<Event>, sets: Event -> bool) returns (i: nat)
    requires !Nowhere(events, sets)
    ensures IsLast(events, i, sets)
  {
    i := |events| - 1;
    if !sets(events[i]) {
      i := LastPosition(events[..i], sets);
    }
  }

  /** An empty name never overwrites a known one. */
  lemma ModelIsLast(events: seq<Event>)
    ensures Nowhere(events, HasModel) ==> Fold(events).fields.stats.model == ""
    ensures forall i :: IsLast(events, i, HasModel) ==> Fold(events).fields.stats.model == events[i].model
  {
    LastWins(events, (f: Fields) => f.stats.model, HasModel, (e: Event) => if e.System? then e.model else "");
  }

  lemma WindowIsLast(events: seq<Event>)
    ensures Nowhere(events, HasWindow) ==> Fold(events).fields.stats.contextWindow == 0
    ensures forall i :: IsLast(events, i, HasWindow) ==>
              Fold(events).fields.stats.contextWindow == events[i].contextWindow
  {
    LastWins(events, (f: Fields) => f.stats.contextWindow, HasWindow,
             (e: Event) => if e.System? then e.contextWindow else 0);
  }

  lemma SessionIsLast(events: seq<Event>)
    ensures Nowhere(events, HasSession) ==> Fold(events).fields.stats.sessionId == ""
    ensures forall i :: IsLast(events, i, HasSession) ==> Fold(events).fields.stats.sessionId == events[i].sessionId
  {
    LastWins(events, (f: Fields) => f.stats.sessionId, HasSession,
             (e: Event) => if e.System? || e.Done? then e.sessionId else "");
  }

  lemma ThreadIsLast(events: seq<Event>)
    ensures Nowhere(events, HasThread) ==> Fold(events).fields.stats.threadId == ""
    ensures forall i :: IsLast(events, i, HasThread) ==> Fold(events).fields.stats.threadId == events[i].threadId
  {
    LastWins(events, (f: Fields) => f.stats.threadId, HasThread,
             (e: Event) => if e.System? || e.Done? then e.threadId else "");
  }

  /** The footer shows what the agent did last. */
  lemma FooterIsLast(events: seq<Event>)
    ensures var f := Fold(events).fields;
            && (Nowhere(events, MovesFooter) ==> f.footer == FooterThinking)
            && (forall i :: IsLast(events, i, MovesFooter) ==>
                  && (f.footer == FooterStreaming <==> events[i].Text?)
                  && (f.footer == FooterThinking <==> events[i].Thinking?)
                  && (f.footer == FooterToolRunning <==> events[i].ToolUse?)
                  && (f.footer == FooterNone <==> events[i].Done? || events[i].Error?))
            && (Nowhere(events, MovesReasoning) ==> !f.reasoningActive)
            && (forall i :: IsLast(events, i, MovesReasoning) ==> (f.reasoningActive <==> events[i].Thinking?))
  {
    LastWins(events, (f: Fields) => f.footer, MovesFooter,
             (e: Event) => if e.Text? then FooterStreaming else if e.Thinking? then FooterThinking
                           else if e.ToolUse? then FooterToolRunning else FooterNone);
    LastWins(events, (f: Fields) => f.reasoningActive, MovesReasoning, (e: Event) => e.Thinking?);
  }

  /** All reasoning, in order. */
  ghost function AllThoughts(events: seq<Event>): string {
    if events == [] then ""
    else AllThoughts(events[..|events| - 1])
         + if events[|events| - 1].Thinking? then events[|events| - 1].delta else ""
  }

  lemma {:induction false} ReasoningConserved(events: seq<Event>)
    ensures Fold(events).fields.reasoning == AllThoughts(events)
  {
    if events != [] {
      var past, e := events[..|events| - 1], events[|events| - 1];
      assert past + [e] == events;
      ReasoningConserved(past);
      FoldSnoc(past, e);
    }
  }

  // ----- blocks: everything the agent did is shown ------------------------------

  /** The state shows the whole run: every text and every tool in its own place,
      nothing else, and what the run has said about itself. */
  ghost predicate ShowsRun(events: seq<Event>, s: RunState) {
    && |s.blocks| == BlockCount(events)
    && AllText(s.blocks) == AllDeltas(events)
    && (forall i :: 0 <= i < |events| && events[i].ToolUse? ==>
          0 <= BlockOf(events, i) < |s.blocks| && s.blocks[BlockOf(events, i)] == ToolBlock(ShownTool(events, i)))
    && (forall b :: 0 <= b < |s.blocks| ==>
          if s.blocks[b].TextBlock? then s.blocks[b].content == TextOf(events, b)
          else exists i :: 0 <= i < |events| && events[i].ToolUse? && BlockOf(events, i) == b)
    && s.fields.finalText == Fold(events).fields.finalText
    && s.fields.reasoning == AllThoughts(events)
    && s.fields.errorMsg == Fold(events).fields.errorMsg
    && s.fields.stats == Fold(events).fields.stats
  }

  lemma FoldShowsRun(events: seq<Event>)
    ensures ShowsRun(events, Fold(events))
  {
    ShapeClosedForm(events);
    TextConserved(events);
    ContentClosedForm(events);
    ToolBlocksMatchToolUses(events);
    ReasoningConserved(events);
  }

  /** A state marked as ended still shows the whole run, with no text streaming. */
  lemma MarkedShowsRun(events: seq<Event>, terminal: Terminal)
    ensures var s := Marked(Fold(events), terminal);
            && ShowsRun(events, s) && !Streaming(s)
            && s.fields.terminal == terminal && s.fields.footer == FooterNone && !s.fields.reasoningActive
  {
    FoldShowsRun(events);
    SameText(Fold(events).blocks, Marked(Fold(events), terminal).blocks);
  }

  /** The state shown at the end of a run shows the whole run. Its end is that of the
      last done or error event; without one it is the watchdog's, the stop's, or
      complete, in that order, and no text streams. */
  lemma FinalizedShowsRun(events: seq<Event>, idleFired: bool, stopped: bool)
    ensures var s := Finalized(Fold(events), idleFired, stopped);
            && ShowsRun(events, s)
            && match LastEnding(events)
               case Some(i) => s == Fold(events) && i < |events| && (events[i].Done? || events[i].Error?)
                               && s.fields.terminal == TerminalOf(events[i])
               case None =>
                 && !Streaming(s) && s.fields.footer == FooterNone && !s.fields.reasoningActive
                 && (s.fields.terminal == IdleTimeout <==> idleFired)
                 && (s.fields.terminal == Stopped <==> stopped && !idleFired)
                 && (s.fields.terminal == Completed <==> !stopped && !idleFired)
  {
    TerminalClosedForm(events);
    FoldShowsRun(events);
    MarkedShowsRun(events, if idleFired then IdleTimeout else if stopped then Stopped else Completed);
    EndedMeansEnding(events);
  }

  lemma EndedMeansEnding(events: seq<Event>)
    ensures Fold(events).fields.terminal == Running <==> LastEnding(events).None?
  {
    TerminalClosedForm(events);
  }
}
