/** The reducer as the code runs it (internal/card/state.go): a state object whose
    blocks lie in a slice and whose tool entries are shared by pointer. `Reduce`
    copies what it writes, so the state it started from, and every entry that state
    can reach, stay as they were. */
module CardObjects {
  import opened AgentEvents
  import opened CardState

  class ToolCell {
    var entry: ToolEntry

    constructor (entry: ToolEntry)
      ensures this.entry == entry
    {
      this.entry := entry;
    }
  }

  datatype Slot = TextSlot(content: string, streaming: bool) | ToolSlot(tool: ToolCell)

  ghost function SlotCells(slots: seq<Slot>): set<ToolCell> {
    set i | 0 <= i < |slots| && slots[i].ToolSlot? :: slots[i].tool
  }

  function SlotView(slot: Slot): Block
    reads if slot.ToolSlot? then {slot.tool} else {}
  {
    match slot
    case TextSlot(content, streaming) => TextBlock(content, streaming)
    case ToolSlot(tool) => ToolBlock(tool.entry)
  }

  ghost function SlotsView(slots: seq<Slot>): (r: seq<Block>)
    reads SlotCells(slots)
    ensures |r| == |slots| && forall i :: 0 <= i < |r| ==> r[i] == SlotView(slots[i])
  {
    seq(|slots|, i requires 0 <= i < |slots| reads SlotCells(slots) => SlotView(slots[i]))
  }

  class RunObject {
    var blocks: array<Slot>
    var fields: Fields

    constructor (blocks: array<Slot>, fields: Fields)
      ensures this.blocks == blocks && this.fields == fields
    {
      this.blocks, this.fields := blocks, fields;
    }

    /** Everything the state is made of. */
    ghost function Reach(): set<object>
      reads this, blocks
    {
      {this, blocks} + SlotCells(blocks[..])
    }

    ghost function View(): RunState
      reads this, blocks, SlotCells(blocks[..])
    {
      RunState(SlotsView(blocks[..]), fields)
    }
  }

  /** A fresh slice with room for `extra` more blocks. */
  method CopySlots(blocks: array<Slot>, extra: nat) returns (out: array<Slot>)
    ensures fresh(out) && out.Length == blocks.Length + extra
    ensures out[..blocks.Length] == blocks[..]
  {
    out := new Slot[blocks.Length + extra](_ => TextSlot("", false));
    for i := 0 to blocks.Length
      invariant forall k :: 0 <= k < i ==> out[k] == blocks[k]
    {
      out[i] := blocks[i];
    }
  }

  /** `closeStreamingText`, with room for the block that may follow. */
  method CloseStreamingText(blocks: array<Slot>, extra: nat) returns (out: array<Slot>)
    ensures fresh(out) && out.Length == blocks.Length + extra
    ensures SlotsView(out[..blocks.Length]) == Closed(SlotsView(blocks[..]))
    ensures SlotCells(out[..blocks.Length]) == SlotCells(blocks[..])
  {
    out := CopySlots(blocks, extra);
    for i := 0 to blocks.Length
      invariant forall k :: 0 <= k < i ==>
          out[k] == if blocks[k].TextSlot? then blocks[k].(streaming := false) else blocks[k]
      invariant forall k :: i <= k < blocks.Length ==> out[k] == blocks[k]
    {
      if out[i].TextSlot? && out[i].streaming {
        out[i] := out[i].(streaming := false);
      }
    }
    assert forall k :: 0 <= k < blocks.Length && blocks[k].ToolSlot? ==> out[..blocks.Length][k] == blocks[..][k];
  }

  /** The tool_result branch: the entries that change are copied first. */
  method ApplyResult(blocks: array<Slot>, id: string, output: string, isError: bool) returns (out: array<Slot>)
    ensures fresh(out) && out.Length == blocks.Length
    ensures SlotsView(out[..]) == WithResult(SlotsView(blocks[..]), id, output, isError)
    ensures forall c :: c in SlotCells(out[..]) ==> c in SlotCells(blocks[..]) || fresh(c)
  {
    out := CopySlots(blocks, 0);
    for i := 0 to blocks.Length
      invariant forall k :: 0 <= k < i ==>
          SlotView(out[k]) == ResolvedBlock(SlotView(blocks[k]), id, output, isError)
      invariant forall k :: 0 <= k < i && out[k].ToolSlot? ==>
          out[k].tool in SlotCells(blocks[..]) || fresh(out[k].tool)
      invariant forall k :: i <= k < blocks.Length ==> out[k] == blocks[k]
    {
      if out[i].ToolSlot? {
        assert out[i].tool in SlotCells(blocks[..]);
        if out[i].tool.entry.id == id {
          var tool := new ToolCell(Resolved(out[i].tool.entry, output, isError));
          out[i] := ToolSlot(tool);
        }
      }
    }
  }

  /** The text branch: the last block grows, or a new one is begun. */
  method ApplyText(blocks: array<Slot>, delta: string) returns (out: array<Slot>)
    ensures fresh(out)
    ensures SlotsView(out[..]) == AppendText(SlotsView(blocks[..]), delta)
    ensures forall c :: c in SlotCells(out[..]) ==> c in SlotCells(blocks[..])
  {
    var n := blocks.Length;
    if n > 0 && blocks[n - 1].TextSlot? && blocks[n - 1].streaming {
      out := CopySlots(blocks, 0);
      out[n - 1] := TextSlot(out[n - 1].content + delta, true);
      assert forall k :: 0 <= k < n - 1 ==> out[..][k] == blocks[..][k];
    } else {
      out := CopySlots(blocks, 1);
      out[n] := TextSlot(delta, true);
      assert forall k :: 0 <= k < n ==> out[..][k] == blocks[..][k];
    }
  }

  /** The tool_use branch: streaming text is closed and a running tool added. */
  method ApplyUse(blocks: array<Slot>, id: string, name: string, input: string) returns (out: array<Slot>)
    ensures fresh(out)
    ensures SlotsView(out[..]) == BlocksAfter(SlotsView(blocks[..]), ToolUse(id, name, input))
    ensures forall c :: c in SlotCells(out[..]) ==> c in SlotCells(blocks[..]) || fresh(c)
  {
    var n := blocks.Length;
    out := CloseStreamingText(blocks, 1);
    ghost var closed := out[..n];
    var tool := new ToolCell(ToolEntry(id, name, input, ToolRunning, ""));
    out[n] := ToolSlot(tool);
    assert out[..] == closed + [ToolSlot(tool)];
    assert SlotsView(out[..]) == SlotsView(closed) + [ToolBlock(tool.entry)];
  }

  method ApplyToBlocks(blocks: array<Slot>, e: Event) returns (out: array<Slot>)
    ensures SlotsView(out[..]) == BlocksAfter(SlotsView(blocks[..]), e)
    ensures out == blocks || fresh(out)
    ensures forall c :: c in SlotCells(out[..]) ==> c in SlotCells(blocks[..]) || fresh(c)
  {
    match e
    case Text(delta) =>
      out := ApplyText(blocks, delta);
    case ToolUse(id, name, input) =>
      out := ApplyUse(blocks, id, name, input);
    case ToolResult(id, output, isError) =>
      out := ApplyResult(blocks, id, output, isError);
    case Done(_, _, _) =>
      out := CloseStreamingText(blocks, 0);
      assert out[..blocks.Length] == out[..];
    case _ =>
      out := blocks;
  }

  method NewState(blocks: array<Slot>, fields: Fields) returns (next: RunObject)
    ensures fresh(next) && next.blocks == blocks && next.View() == RunState(SlotsView(blocks[..]), fields)
    ensures SlotsView(blocks[..]) == old(SlotsView(blocks[..]))
  {
    next := new RunObject(blocks, fields);
  }

  /** A state whose parts are unchanged shows what it showed. */
  twostate lemma Untouched(s: RunObject)
    requires unchanged(s) && unchanged(s.blocks)
    requires forall c :: c in old(SlotCells(s.blocks[..])) ==> unchanged(c)
    ensures s.View() == old(s.View())
  {
    assert s.blocks[..] == old(s.blocks[..]);
  }

  /** The blocks of a new state are shared or fresh. */
  twostate lemma Shared(s: RunObject, new next: RunObject)
    requires fresh(next) && (next.blocks == s.blocks || fresh(next.blocks))
    requires forall c :: c in SlotCells(next.blocks[..]) ==> c in SlotCells(s.blocks[..]) || fresh(c)
    ensures forall o :: o in next.Reach() ==> o in s.Reach() || fresh(o)
  {
    forall o | o in next.Reach() ensures o in s.Reach() || fresh(o) {
      assert o == next || o == next.blocks || o in SlotCells(next.blocks[..]);
    }
  }

  /** `Reduce`: a new state object with the reduced view. Without a modifies clause
      nothing that existed before can have changed. */
  method Reduce(s: RunObject, e: Event) returns (next: RunObject)
    ensures fresh(next) && next.View() == CardState.Reduce(s.View(), e)
    ensures s.View() == old(s.View())
    ensures forall o :: o in next.Reach() ==> o in s.Reach() || fresh(o)
  {
    var blocks := ApplyToBlocks(s.blocks, e);
    next := NewState(blocks, FieldsAfter(s.fields, e));
    Untouched(s);
    Shared(s, next);
  }
}
