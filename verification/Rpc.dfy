/** Request/response correlation of the three agent clients: the ACP client
    (internal/agent/acp.go), the Codex app-server client
    (internal/agent/codex_appserver.go) and the pi client (internal/agent/pi.go).
    They share one shape - a table of pending waiters, each with a one-slot channel -
    and differ in their sections, so one machine carries all three.

    Callers, the reader, timeouts and the death of the process interleave freely:
    a run is any sequence of actions, and an action that is not enabled changes
    nothing. */
module Rpc {
  import opened Common
  import opened Numerals

  datatype Kind = Acp | Codex | Pi

  /** The key under which a waiter is filed: ACP uses integers, the others text. */
  datatype Id = Number(number: int) | Name(name: string)

  function IdOf(kind: Kind, number: nat): Id {
    match kind
    case Acp => Number(number)
    case Codex => Name(Decimal(number))
    case Pi => Name("req-" + Decimal(number))
  }

  lemma IdInjective(kind: Kind, m: nat, n: nat)
    requires IdOf(kind, m) == IdOf(kind, n)
    ensures m == n
  {
    if kind.Codex? {
      DecimalInjective(m, n);
    } else if kind.Pi? {
      assert ("req-" + Decimal(m))[4..] == Decimal(m);
      assert ("req-" + Decimal(n))[4..] == Decimal(n);
      DecimalInjective(m, n);
    }
  }

  /** A response as the reader decoded it. */
  datatype Response = Response(id: Id, body: string)

  datatype Outcome =
    | Answered(response: Response)
    | Died                            // the channel was closed
    | Refused                         // the process was already known to be gone
    | WriteFailed
    | TimedOut

  /** Where the calling goroutine stands. */
  datatype Phase =
    | Registered(seenDead: bool)      // filed; `seenDead` was read in the same section
    | Writing
    | Waiting                         // blocked on its channel
    | Failing(outcome: Outcome)       // about to remove its own entry
    | Returned(outcome: Outcome)

  /** A call with its channel: everything ever sent on it and how often it was
      closed. `orphaned` (history) says that somebody else removed its entry. */
  datatype Call = Call(id: Id, phase: Phase, sent: seq<Response>, closings: nat, orphaned: bool)

  /** `ended` is the flag callers look at, `exited` says that the process was reaped,
      `hand` is what the Codex reader took out of the table and has not yet sent. */
  datatype Client = Client(
    kind: Kind, calls: seq<Call>, pending: map<Id, nat>, lastNumber: nat,
    ended: bool, exited: bool, hand: Option<(nat, Response)>)

  function Started(kind: Kind): Client {
    Client(kind, [], map[], 0, false, false, None)
  }

  // ----- sections -----------------------------------------------------------

  function WithPhase(c: Client, k: nat, phase: Phase): Client
    requires k < |c.calls|
  {
    c.(calls := c.calls[k := c.calls[k].(phase := phase)])
  }

  function Signalled(call: Call): bool { call.sent != [] || call.closings > 0 }

  /** A caller takes the next number and files its channel. The ACP client does so
      only while the process lives; the other two look at the flag but file anyway. */
  function AfterBegin(c: Client): Client {
    if c.kind.Acp? && c.ended then c
    else
      var id := IdOf(c.kind, c.lastNumber + 1);
      c.(lastNumber := c.lastNumber + 1,
         calls := c.calls + [Call(id, Registered(c.ended), [], 0, false)],
         pending := c.pending[id := |c.calls|])
  }

  /** Decides whether to write: ACP looks at the flag again, in a second section. */
  function AfterCheck(c: Client, k: nat): Client
    requires k < |c.calls| && c.calls[k].phase.Registered?
  {
    var gone := if c.kind.Acp? then c.ended else c.calls[k].phase.seenDead;
    WithPhase(c, k, if gone then Failing(Refused) else Writing)
  }

  /** A caller that gives up removes its entry. */
  function AfterDrop(c: Client, k: nat): Client
    requires k < |c.calls| && c.calls[k].phase.Failing?
  {
    WithPhase(c, k, Returned(c.calls[k].phase.outcome)).(pending := c.pending - {c.calls[k].id})
  }

  function AfterReceive(c: Client, k: nat): Client
    requires k < |c.calls| && Signalled(c.calls[k])
  {
    WithPhase(c, k, Returned(if c.calls[k].sent != [] then Answered(c.calls[k].sent[0]) else Died))
  }

  function Send(c: Client, k: nat, r: Response): Client
    requires k < |c.calls|
  {
    c.(calls := c.calls[k := c.calls[k].(sent := c.calls[k].sent + [r])])
  }

  /** The reader looks a response up. ACP and pi send inside the section; Codex only
      takes the entry out and sends later. */
  function AfterRespond(c: Client, r: Response): Client
    requires r.id in c.pending ==> c.pending[r.id] < |c.calls|
  {
    if r.id !in c.pending then c
    else
      var k := c.pending[r.id];
      var taken := c.(pending := c.pending - {r.id});
      if c.kind.Codex? then taken.(hand := Some((k, r))) else Send(taken, k, r)
  }

  /** Process death: every filed channel is closed and the table emptied. */
  function AfterExit(c: Client): Client {
    c.(ended := true, exited := true, pending := map[],
       calls := seq(|c.calls|, k requires 0 <= k < |c.calls| =>
         if c.calls[k].id in c.pending && c.pending[c.calls[k].id] == k
         then c.calls[k].(closings := c.calls[k].closings + 1) else c.calls[k]))
  }

  /** pi: a failed fire-and-forget reply removes the entry of the id it carries, which
      the agent process chose. */
  function AfterStrayDrop(c: Client, name: string): Client
    requires Name(name) in c.pending ==> c.pending[Name(name)] < |c.calls|
  {
    if Name(name) !in c.pending then c
    else
      var k := c.pending[Name(name)];
      c.(pending := c.pending - {Name(name)}, calls := c.calls[k := c.calls[k].(orphaned := true)])
  }

  // ----- interleavings ------------------------------------------------------

  datatype Action =
    | Begin
    | Check(caller: nat)
    | Write(caller: nat, ok: bool)
    | Drop(caller: nat)
    | Timeout(caller: nat)
    | Receive(caller: nat)
    | Respond(response: Response)
    | Deliver                         // Codex reader: the send outside the lock
    | End                             // Codex: `finish` or `failStartup`
    | Exit
    | StrayDrop(name: string)
    | Unanswered                      // pi: a fire-and-forget command takes a number

  ghost function Step(c: Client, a: Action): Client {
    match a
    case Begin => AfterBegin(c)
    case Check(k) => if k < |c.calls| && c.calls[k].phase.Registered? then AfterCheck(c, k) else c
    case Write(k, ok) =>
      if k < |c.calls| && c.calls[k].phase.Writing?
      then WithPhase(c, k, if ok then Waiting else Failing(WriteFailed)) else c
    case Drop(k) => if k < |c.calls| && c.calls[k].phase.Failing? then AfterDrop(c, k) else c
    case Timeout(k) =>
      if k < |c.calls| && c.calls[k].phase.Waiting? && !c.kind.Acp?
      then WithPhase(c, k, Failing(TimedOut)) else c
    case Receive(k) =>
      if k < |c.calls| && c.calls[k].phase.Waiting? && Signalled(c.calls[k]) then AfterReceive(c, k) else c
    case Respond(r) =>
      if c.hand.Some? || (r.id in c.pending && c.pending[r.id] >= |c.calls|) then c else AfterRespond(c, r)
    case Deliver =>
      if c.hand.Some? && c.hand.value.0 < |c.calls|
      then Send(c, c.hand.value.0, c.hand.value.1).(hand := None) else c
    case End => if c.kind.Codex? then c.(ended := true) else c
    case Exit => if c.exited then c else AfterExit(c)
    case StrayDrop(name) =>
      if c.kind.Pi? && (Name(name) in c.pending ==> c.pending[Name(name)] < |c.calls|)
      then AfterStrayDrop(c, name) else c
    case Unanswered => if c.kind.Pi? then c.(lastNumber := c.lastNumber + 1) else c
  }

  ghost function Run(c: Client, actions: seq<Action>): Client {
    if actions == [] then c else Step(Run(c, actions[..|actions| - 1]), actions[|actions| - 1])
  }

  lemma {:induction false} RunAppend(c: Client, past: seq<Action>, future: seq<Action>)
    ensures Run(c, past + future) == Run(Run(c, past), future)
  {
    if future == [] {
      assert past + future == past;
    } else {
      RunAppend(c, past, future[..|future| - 1]);
      assert (past + future)[..|past + future| - 1] == past + future[..|future| - 1];
    }
  }

  // ----- invariant ----------------------------------------------------------

  ghost predicate Pending(c: Client, k: nat)
    requires k < |c.calls|
  {
    c.calls[k].id in c.pending && c.pending[c.calls[k].id] == k
  }

  ghost predicate InHand(c: Client, k: nat) {
    c.hand.Some? && c.hand.value.0 == k
  }

  /** No two calls share an id, and the ids to come are all different. */
  ghost predicate IdsOk(c: Client) {
    && (forall i, j :: 0 <= i < j < |c.calls| ==> c.calls[i].id != c.calls[j].id)
    && (forall n, k :: n > c.lastNumber && 0 <= k < |c.calls| ==> IdOf(c.kind, n) != c.calls[k].id)
  }

  ghost predicate TableOk(c: Client) {
    && (forall id :: id in c.pending ==> c.pending[id] < |c.calls| && c.calls[c.pending[id]].id == id)
    && (c.hand.Some? ==>
          && c.kind.Codex? && c.hand.value.0 < |c.calls| && !Pending(c, c.hand.value.0)
          && c.calls[c.hand.value.0].id == c.hand.value.1.id
          && !Signalled(c.calls[c.hand.value.0]))
  }

  /** What is known of one call. */
  ghost predicate CallOk(c: Client, k: nat)
    requires k < |c.calls|
  {
    var call := c.calls[k];
    && |call.sent| + call.closings <= 1
    && (call.sent != [] ==> call.sent[0].id == call.id)
    && (call.closings > 0 ==> c.exited)
    && (call.orphaned ==> c.kind.Pi? && !Signalled(call) && !Pending(c, k))
    && (Pending(c, k) ==> !Signalled(call) && !call.phase.Returned?)
    && (!call.phase.Returned? ==> Pending(c, k) || InHand(c, k) || Signalled(call) || call.orphaned)
    && (call.phase.Registered? && call.phase.seenDead ==> c.ended && !c.kind.Acp?)
    && (c.exited && Pending(c, k) ==> call.phase.Failing? || (call.phase.Registered? && call.phase.seenDead))
    && (call.phase.Returned? && call.phase.outcome.Answered? ==> call.sent == [call.phase.outcome.response])
    && (call.phase.Returned? && call.phase.outcome.Died? ==> call.closings == 1)
    && (call.phase.Failing? ==> !call.phase.outcome.Answered? && !call.phase.outcome.Died?)
  }

  ghost predicate FlagsOk(c: Client) {
    && (c.exited ==> c.ended)
    && (!c.kind.Codex? ==> (c.ended ==> c.exited))
    && (c.kind.Acp? && c.ended ==> c.pending == map[])
  }

  ghost predicate Inv(c: Client) {
    && IdsOk(c)
    && TableOk(c)
    && FlagsOk(c)
    && (forall k :: 0 <= k < |c.calls| ==> CallOk(c, k))
  }

  lemma StepKeepsIds(c: Client, a: Action)
    requires IdsOk(c)
    ensures IdsOk(Step(c, a))
  {
    var d := Step(c, a);
    if a.Begin? && d != c {
      forall n | n > d.lastNumber ensures IdOf(c.kind, n) != IdOf(c.kind, d.lastNumber) {
        if IdOf(c.kind, n) == IdOf(c.kind, d.lastNumber) {
          IdInjective(c.kind, n, d.lastNumber);
        }
      }
    } else {
      StepKeepsNames(c, a);
    }
  }

  /** Only `Begin` adds calls, and no step renames one. */
  lemma StepKeepsNames(c: Client, a: Action)
    ensures var d := Step(c, a);
            && d.kind == c.kind && d.lastNumber >= c.lastNumber
            && |c.calls| <= |d.calls| <= |c.calls| + (if a.Begin? then 1 else 0)
            && (forall k :: 0 <= k < |c.calls| ==> d.calls[k].id == c.calls[k].id)
  {
  }

  lemma BeginKeeps(c: Client)
    requires Inv(c)
    ensures TableOk(AfterBegin(c)) && FlagsOk(AfterBegin(c))
    ensures forall k :: 0 <= k < |AfterBegin(c).calls| ==> CallOk(AfterBegin(c), k)
  {
    var d := AfterBegin(c);
    assert IdOf(c.kind, c.lastNumber + 1) !in c.pending;
    forall k | 0 <= k < |d.calls| ensures CallOk(d, k) {
      if k < |c.calls| {
        assert CallOk(c, k);
      }
    }
  }

  /** What a caller may move to without touching the table. */
  ghost predicate Allowed(c: Client, k: nat, phase: Phase)
    requires k < |c.calls|
  {
    match phase
    case Registered(_) => false
    case Failing(o) => !o.Answered? && !o.Died?
    case Returned(o) =>
      && Signalled(c.calls[k])
      && (o.Answered? ==> c.calls[k].sent == [o.response])
      && (o.Died? ==> c.calls[k].closings == 1)
    case _ => c.exited ==> !Pending(c, k)
  }

  lemma PhaseKeeps(c: Client, k: nat, phase: Phase)
    requires Inv(c) && k < |c.calls| && !c.calls[k].phase.Returned? && Allowed(c, k, phase)
    ensures Inv(WithPhase(c, k, phase))
  {
    forall i | 0 <= i < |c.calls| ensures CallOk(WithPhase(c, k, phase), i) {
      assert CallOk(c, i);
    }
  }

  lemma CallerKeeps(c: Client, a: Action, k: nat)
    requires Inv(c) &&
             (a == Check(k) || a == Write(k, true) || a == Write(k, false) || a == Timeout(k) || a == Receive(k))
    ensures Inv(Step(c, a))
  {
    if k < |c.calls| && Step(c, a) != c {
      assert CallOk(c, k);
      PhaseKeeps(c, k, Step(c, a).calls[k].phase);
    }
  }

  lemma DropKeeps(c: Client, k: nat)
    requires Inv(c) && k < |c.calls| && c.calls[k].phase.Failing?
    ensures TableOk(AfterDrop(c, k)) && FlagsOk(AfterDrop(c, k))
    ensures forall i :: 0 <= i < |AfterDrop(c, k).calls| ==> CallOk(AfterDrop(c, k), i)
  {
    forall i | 0 <= i < |AfterDrop(c, k).calls| ensures CallOk(AfterDrop(c, k), i) {
      assert CallOk(c, i);
    }
  }

  lemma RespondKeeps(c: Client, r: Response)
    requires Inv(c) && c.hand.None?
    ensures TableOk(AfterRespond(c, r)) && FlagsOk(AfterRespond(c, r))
    ensures forall k :: 0 <= k < |AfterRespond(c, r).calls| ==> CallOk(AfterRespond(c, r), k)
  {
    var d := AfterRespond(c, r);
    if r.id in c.pending {
      assert CallOk(c, c.pending[r.id]);
    }
    forall k | 0 <= k < |d.calls| ensures CallOk(d, k) {
      assert CallOk(c, k);
    }
  }

  lemma DeliverKeeps(c: Client)
    requires Inv(c)
    ensures TableOk(Step(c, Deliver)) && FlagsOk(Step(c, Deliver))
    ensures forall k :: 0 <= k < |Step(c, Deliver).calls| ==> CallOk(Step(c, Deliver), k)
  {
    forall k | 0 <= k < |Step(c, Deliver).calls| ensures CallOk(Step(c, Deliver), k) {
      assert CallOk(c, k);
    }
  }

  lemma ExitKeeps(c: Client)
    requires Inv(c)
    ensures TableOk(AfterExit(c)) && FlagsOk(AfterExit(c))
    ensures forall k :: 0 <= k < |AfterExit(c).calls| ==> CallOk(AfterExit(c), k)
  {
    forall k | 0 <= k < |AfterExit(c).calls| ensures CallOk(AfterExit(c), k) {
      assert CallOk(c, k);
    }
  }

  lemma StrayDropKeeps(c: Client, name: string)
    requires Inv(c) && c.kind.Pi?
    ensures TableOk(AfterStrayDrop(c, name)) && FlagsOk(AfterStrayDrop(c, name))
    ensures forall k :: 0 <= k < |AfterStrayDrop(c, name).calls| ==> CallOk(AfterStrayDrop(c, name), k)
  {
    forall k | 0 <= k < |AfterStrayDrop(c, name).calls| ensures CallOk(AfterStrayDrop(c, name), k) {
      assert CallOk(c, k);
    }
  }

  lemma FlagKeeps(c: Client, a: Action)
    requires Inv(c) && (a.End? || a.Unanswered?)
    ensures Inv(Step(c, a))
  {
    StepKeepsIds(c, a);
    forall k | 0 <= k < |Step(c, a).calls| ensures CallOk(Step(c, a), k) {
      assert CallOk(c, k);
    }
  }

  lemma StepKeepsInv(c: Client, a: Action)
    requires Inv(c)
    ensures Inv(Step(c, a))
  {
    StepKeepsIds(c, a);
    match a
    case Begin => BeginKeeps(c);
    case Drop(k) => if k < |c.calls| && c.calls[k].phase.Failing? { DropKeeps(c, k); }
    case Respond(r) => if c.hand.None? { RespondKeeps(c, r); }
    case Deliver => DeliverKeeps(c);
    case Exit => ExitKeeps(c);
    case StrayDrop(name) => if c.kind.Pi? { StrayDropKeeps(c, name); }
    case End => FlagKeeps(c, a);
    case Unanswered => FlagKeeps(c, a);
    case _ => CallerKeeps(c, a, a.caller);
  }

  lemma {:induction false} RunKeepsInv(kind: Kind, actions: seq<Action>)
    ensures Inv(Run(Started(kind), actions))
    ensures Run(Started(kind), actions).kind == kind
  {
    if actions != [] {
      var before := Run(Started(kind), actions[..|actions| - 1]);
      RunKeepsInv(kind, actions[..|actions| - 1]);
      StepKeepsInv(before, actions[|actions| - 1]);
      StepKeepsNames(before, actions[|actions| - 1]);
    }
  }

  // ----- theorems -----------------------------------------------------------

  /** Ids issued to calls are never reused. */
  lemma IdsNeverReused(kind: Kind, actions: seq<Action>, i: nat, j: nat)
    requires i < j < |Run(Started(kind), actions).calls|
    ensures var c := Run(Started(kind), actions); c.calls[i].id != c.calls[j].id
  {
    RunKeepsInv(kind, actions);
  }

  /** Everything sent or about to be sent arrived from the process. */
  ghost predicate Genuine(c: Client, actions: seq<Action>) {
    && (c.hand.Some? ==> Respond(c.hand.value.1) in actions)
    && (forall k, r :: 0 <= k < |c.calls| && r in c.calls[k].sent ==> Respond(r) in actions)
  }

  lemma StepKeepsGenuine(c: Client, actions: seq<Action>, a: Action)
    requires Genuine(c, actions)
    ensures Genuine(Step(c, a), actions + [a])
  {
    var d := Step(c, a);
    forall k, r | 0 <= k < |d.calls| && r in d.calls[k].sent ensures Respond(r) in actions + [a] {
      assert a == Respond(r) || (c.hand.Some? && c.hand.value.1 == r) || (k < |c.calls| && r in c.calls[k].sent);
    }
  }

  lemma {:induction false} RunKeepsGenuine(kind: Kind, actions: seq<Action>)
    ensures Genuine(Run(Started(kind), actions), actions)
  {
    if actions != [] {
      RunKeepsGenuine(kind, actions[..|actions| - 1]);
      StepKeepsGenuine(Run(Started(kind), actions[..|actions| - 1]), actions[..|actions| - 1], actions[|actions| - 1]);
      assert actions[..|actions| - 1] + [actions[|actions| - 1]] == actions;
    }
  }

  /** A call only ever returns a response that carries its own id and did arrive;
      it reports the death of the process only when the process is gone. */
  lemma OwnResponse(kind: Kind, actions: seq<Action>, k: nat)
    requires k < |Run(Started(kind), actions).calls|
    requires Run(Started(kind), actions).calls[k].phase.Returned?
    ensures var c := Run(Started(kind), actions);
            var outcome := c.calls[k].phase.outcome;
            && (outcome.Answered? ==> outcome.response.id == c.calls[k].id && Respond(outcome.response) in actions)
            && (outcome.Died? ==> c.exited)
  {
    var c := Run(Started(kind), actions);
    RunKeepsInv(kind, actions);
    RunKeepsGenuine(kind, actions);
    assert CallOk(c, k);
    if c.calls[k].phase.outcome.Answered? {
      assert c.calls[k].phase.outcome.response in c.calls[k].sent;
    }
  }

  /** A waiter channel gets at most one of {one send, one close}, so whenever the
      reader is about to send, the slot is free and the channel open: it neither
      blocks nor panics. */
  lemma ReaderNeverBlocks(kind: Kind, actions: seq<Action>, id: Id, k: nat)
    ensures var c := Run(Started(kind), actions);
            && (k < |c.calls| ==> |c.calls[k].sent| + c.calls[k].closings <= 1)
            && (id in c.pending ==> c.pending[id] < |c.calls| && !Signalled(c.calls[c.pending[id]]))
            && (c.hand.Some? ==> c.hand.value.0 < |c.calls| && !Signalled(c.calls[c.hand.value.0]))
  {
    var c := Run(Started(kind), actions);
    RunKeepsInv(kind, actions);
    if k < |c.calls| {
      assert CallOk(c, k);
    }
    if id in c.pending {
      assert CallOk(c, c.pending[id]);
    }
  }

  /** Nothing will ever wake this waiter but its own timeout. */
  ghost predicate Lost(c: Client, k: nat)
    requires k < |c.calls|
  {
    c.calls[k].phase.Waiting? && !Pending(c, k) && !InHand(c, k) && !Signalled(c.calls[k])
  }

  /** No waiter is stranded, with one exact exception: a pi waiter whose entry was
      removed by a failed reply that carried the waiter's id. Once the process is
      gone, everybody else who waits can receive at once, or as soon as the reader has
      sent what it holds. */
  lemma NobodyStranded(kind: Kind, actions: seq<Action>, k: nat)
    requires k < |Run(Started(kind), actions).calls|
    requires Run(Started(kind), actions).calls[k].phase.Waiting?
    ensures var c := Run(Started(kind), actions);
            && (Lost(c, k) <==> c.calls[k].orphaned)
            && (c.calls[k].orphaned ==> kind.Pi?)
            && (c.exited && !c.calls[k].orphaned && !InHand(c, k) ==> Step(c, Receive(k)).calls[k].phase.Returned?)
            && (InHand(c, k) ==> Step(Step(c, Deliver), Receive(k)).calls[k].phase.Returned?)
  {
    var c := Run(Started(kind), actions);
    RunKeepsInv(kind, actions);
    assert CallOk(c, k);
  }

  lemma StepOrphans(c: Client, a: Action, k: nat)
    requires Inv(c) && k < |Step(c, a).calls| && Step(c, a).calls[k].orphaned
    ensures (k < |c.calls| && c.calls[k].orphaned)
            || (Step(c, a).calls[k].id.Name? && a == StrayDrop(Step(c, a).calls[k].id.name))
  {
  }

  /** An orphaned call was orphaned by a reply that carried its id. */
  lemma {:induction false} OrphanedByReply(kind: Kind, actions: seq<Action>, k: nat)
    requires k < |Run(Started(kind), actions).calls|
    requires Run(Started(kind), actions).calls[k].orphaned
    ensures var id := Run(Started(kind), actions).calls[k].id;
            id.Name? && StrayDrop(id.name) in actions
  {
    var front, last := actions[..|actions| - 1], actions[|actions| - 1];
    var c := Run(Started(kind), front);
    RunKeepsInv(kind, front);
    StepOrphans(c, last, k);
    if k < |c.calls| && c.calls[k].orphaned {
      OrphanedByReply(kind, front, k);
      StepKeepsNames(c, last);
    }
  }

  /** The exception is real: the waiter's response arrives and is thrown away. */
  lemma PiReplyCanOrphan()
    ensures var actions := [Begin, Check(0), Write(0, true),
                            StrayDrop("req-1"), Respond(Response(Name("req-1"), "ok"))];
            var c := Run(Started(Pi), actions);
            |c.calls| == 1 && c.calls[0].id == Name("req-1") && Lost(c, 0)
  {
    var c0 := Started(Pi);
    var c1 := Step(c0, Begin);
    assert Decimal(1) == "1";
    assert "req-" + "1" == "req-1";
    assert c1.calls[0].id == Name("req-1");
    var c2 := Step(c1, Check(0));
    var c3 := Step(c2, Write(0, true));
    var c4 := Step(c3, StrayDrop("req-1"));
    var c5 := Step(c4, Respond(Response(Name("req-1"), "ok")));
    assert Lost(c5, 0);
    var actions := [Begin, Check(0), Write(0, true), StrayDrop("req-1"), Respond(Response(Name("req-1"), "ok"))];
    assert actions[..4] == actions[..4] && actions[..4][..3] == actions[..3];
    assert actions[..3][..2] == actions[..2] && actions[..2][..1] == actions[..1] && actions[..1][..0] == [];
    assert Run(c0, actions[..1]) == c1;
    assert Run(c0, actions[..2]) == c2;
    assert Run(c0, actions[..3]) == c3;
    assert Run(c0, actions[..4]) == c4;
  }

  lemma StepKeepsEnded(c: Client, a: Action)
    ensures c.ended ==> Step(c, a).ended
  {
  }

  lemma {:induction false} EndedForGood(c: Client, future: seq<Action>)
    ensures c.ended ==> Run(c, future).ended
  {
    if future != [] {
      EndedForGood(c, future[..|future| - 1]);
      StepKeepsEnded(Run(c, future[..|future| - 1]), future[|future| - 1]);
    }
  }

  /** ACP: once the process is dead no waiter is ever filed again. */
  lemma AcpDeadMeansEmpty(past: seq<Action>, future: seq<Action>)
    requires Run(Started(Acp), past).ended
    ensures Run(Started(Acp), past + future).pending == map[]
  {
    RunAppend(Started(Acp), past, future);
    EndedForGood(Run(Started(Acp), past), future);
    RunKeepsInv(Acp, past + future);
  }

  /** Entries belong to calls that have not returned, so when every call has returned
      the table is empty. */
  lemma TableHoldsOpenCalls(kind: Kind, actions: seq<Action>)
    ensures var c := Run(Started(kind), actions);
            && (forall id :: id in c.pending ==>
                  && c.pending[id] < |c.calls| && c.calls[c.pending[id]].id == id
                  && !c.calls[c.pending[id]].phase.Returned?)
            && ((forall k :: 0 <= k < |c.calls| ==> c.calls[k].phase.Returned?) ==> c.pending == map[])
  {
    var c := Run(Started(kind), actions);
    RunKeepsInv(kind, actions);
    forall id | id in c.pending ensures !c.calls[c.pending[id]].phase.Returned? {
      assert CallOk(c, c.pending[id]);
    }
  }

  /** The call is known and no longer filed. */
  ghost predicate Unfiled(c: Client, k: nat) {
    k < |c.calls| && c.calls[k].id !in c.pending
  }

  lemma StepNeverRefiles(c: Client, a: Action, k: nat)
    requires Inv(c) && Unfiled(c, k)
    ensures Unfiled(Step(c, a), k) && Step(c, a).calls[k].id == c.calls[k].id
  {
  }

  lemma {:induction false} NeverRefiled(kind: Kind, past: seq<Action>, future: seq<Action>, k: nat)
    requires Unfiled(Run(Started(kind), past), k)
    ensures Unfiled(Run(Started(kind), past + future), k)
    ensures Run(Started(kind), past + future).calls[k].id == Run(Started(kind), past).calls[k].id
  {
    if future == [] {
      assert past + future == past;
    } else {
      var front, last := future[..|future| - 1], future[|future| - 1];
      NeverRefiled(kind, past, front, k);
      assert past + future == (past + front) + [last];
      assert ((past + front) + [last])[..|past + front|] == past + front;
      RunKeepsInv(kind, past + front);
      StepNeverRefiles(Run(Started(kind), past + front), last, k);
    }
  }

  /** At most one response is accepted per call: after the first one looked up for an
      issued id, every later response with that id changes nothing. */
  lemma AcceptedOnce(kind: Kind, past: seq<Action>, first: Response, future: seq<Action>, second: Response, k: nat)
    requires var c := Run(Started(kind), past);
             c.hand.None? && k < |c.calls| && c.calls[k].id == first.id == second.id
    ensures var c := Run(Started(kind), past + [Respond(first)] + future);
            Step(c, Respond(second)) == c
  {
    RunKeepsInv(kind, past);
    var next := past + [Respond(first)];
    assert next[..|past|] == past;
    StepKeepsNames(Run(Started(kind), past), Respond(first));
    NeverRefiled(kind, next, future, k);
  }

  /** What a call returned never changes. */
  lemma {:induction false} ReturnedForGood(c: Client, future: seq<Action>, k: nat)
    requires k < |c.calls| && c.calls[k].phase.Returned?
    ensures k < |Run(c, future).calls| && Run(c, future).calls[k].phase == c.calls[k].phase
  {
    if future != [] {
      ReturnedForGood(c, future[..|future| - 1], k);
      StepKeepsReturned(Run(c, future[..|future| - 1]), future[|future| - 1], k);
    }
  }

  lemma StepKeepsReturned(c: Client, a: Action, k: nat)
    requires k < |c.calls| && c.calls[k].phase.Returned?
    ensures k < |Step(c, a).calls| && Step(c, a).calls[k].phase == c.calls[k].phase
  {
    StepKeepsNames(c, a);
  }

  // ----- the client ---------------------------------------------------------

  /** The client object. Each method is one lock-held section. */
  class RpcClient {
    const kind: Kind
    var calls: seq<Call>
    var pending: map<Id, nat>
    var lastNumber: nat
    var ended: bool
    var exited: bool
    var hand: Option<(nat, Response)>

    ghost function View(): Client
      reads this
    {
      Client(kind, calls, pending, lastNumber, ended, exited, hand)
    }

    constructor (kind: Kind)
      ensures View() == Started(kind)
    {
      this.kind := kind;
      calls, pending, lastNumber, ended, exited, hand := [], map[], 0, false, false, None;
    }

    method Begin() returns (caller: Option<nat>)
      requires Inv(View())
      modifies this
      ensures Inv(View()) && View() == AfterBegin(old(View()))
      ensures caller == if old(kind.Acp? && ended) then None else Some(old(|calls|))
    {
      StepKeepsInv(View(), Action.Begin);
      if kind.Acp? && ended {
        return None;
      }
      lastNumber := lastNumber + 1;
      var id := IdOf(kind, lastNumber);
      caller := Some(|calls|);
      pending := pending[id := |calls|];
      calls := calls + [Call(id, Registered(ended), [], 0, false)];
    }

    method GiveUp(k: nat)
      requires Inv(View()) && k < |calls| && calls[k].phase.Failing?
      modifies this`pending, this`calls
      ensures Inv(View()) && View() == AfterDrop(old(View()), k)
    {
      StepKeepsInv(View(), Drop(k));
      pending := pending - {calls[k].id};
      calls := calls[k := calls[k].(phase := Returned(calls[k].phase.outcome))];
    }

    /** The reader: `sent` says that the response was sent within the section. */
    method HandleResponse(r: Response) returns (sent: bool)
      requires Inv(View()) && hand.None?
      modifies this`pending, this`calls, this`hand
      ensures Inv(View()) && View() == AfterRespond(old(View()), r)
      ensures sent <==> r.id in old(pending) && !kind.Codex?
    {
      StepKeepsInv(View(), Respond(r));
      if r.id in pending {
        var k := pending[r.id];
        pending := pending - {r.id};
        if kind.Codex? {
          hand := Some((k, r));
        } else {
          calls := calls[k := calls[k].(sent := calls[k].sent + [r])];
          sent := true;
          return;
        }
      }
      sent := false;
    }

    /** Closes the filed channels one by one, in any order. */
    method CloseFiled()
      requires IdsOk(View()) && TableOk(View())
      modifies this`pending, this`calls
      ensures pending == map[] && ClosedSoFar(old(View()), map[], calls)
    {
      ghost var before := View();
      NoneClosed(before);
      while pending != map[]
        invariant ClosedSoFar(before, pending, calls)
        decreases pending.Keys
      {
        var id :| id in pending;
        CloseOne(before, pending, calls, id);
        var k := pending[id];
        calls := calls[k := calls[k].(closings := calls[k].closings + 1)];
        pending := pending - {id};
      }
    }

    /** The death section. */
    method ProcessExited()
      requires Inv(View())
      modifies this
      ensures Inv(View()) && View() == AfterExit(old(View()))
    {
      ExitKeepsInv(View());
      ghost var before := View();
      CloseFiled();
      AllClosed(before, calls);
      ended, exited := true, true;
    }
  }

  lemma ExitKeepsInv(c: Client)
    requires Inv(c)
    ensures Inv(AfterExit(c))
  {
    ExitKeeps(c);
  }

  /** Exactly the channels no longer in the table have been closed. */
  ghost predicate ClosedSoFar(before: Client, pending: map<Id, nat>, calls: seq<Call>) {
    && TableOk(before) && |calls| == |before.calls|
    && (forall id :: id in pending ==> id in before.pending && pending[id] == before.pending[id])
    && (forall k :: 0 <= k < |calls| ==>
          calls[k] == if Pending(before, k) && before.calls[k].id !in pending
                      then before.calls[k].(closings := before.calls[k].closings + 1) else before.calls[k])
  }

  lemma NoneClosed(before: Client)
    requires TableOk(before)
    ensures ClosedSoFar(before, before.pending, before.calls)
  {
  }

  lemma CloseOne(before: Client, pending: map<Id, nat>, calls: seq<Call>, id: Id)
    requires IdsOk(before) && ClosedSoFar(before, pending, calls) && id in pending
    ensures pending[id] < |calls|
    ensures var k := pending[id];
            ClosedSoFar(before, pending - {id}, calls[k := calls[k].(closings := calls[k].closings + 1)])
  {
  }

  lemma AllClosed(before: Client, calls: seq<Call>)
    requires ClosedSoFar(before, map[], calls)
    ensures AfterExit(before) == before.(ended := true, exited := true, pending := map[], calls := calls)
  {
    assert AfterExit(before).calls == calls;
  }
}
