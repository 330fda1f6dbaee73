/** OpenCode's two channels (internal/agent/opencode.go): runs subscribed to a
    session receive its event stream, a poller reads the session's message list and
    fills in what the stream lost, and four different actors may close a run. */
module OpenCode {
  import opened Common
  import opened AgentEvents
  import CardState

  type Texts = map<string, string>   // message id -> text

  /** Where an event sent to a run came from, and for what message (history). */
  datatype Origin = FromStream(message: string) | FromPoll(message: string) | FromBridge

  datatype Sent = Sent(event: Event, origin: Origin)

  /** One run. `events` is everything ever sent on its channel; `closings` counts the
      closings of the channel, and `before` is the text of its session already handed
      out when it registered (both are history). */
  datatype RunInfo = RunInfo(session: string, events: seq<Sent>, closed: bool, closings: nat, before: Texts)

  /** The server object: subscribed runs per session, every run ever made, and the
      text recorded per session and message. `fanned` (history) is the part of it
      that has been handed out to runs. */
  datatype Server = Server(
    runs: map<string, set<nat>>, info: map<nat, RunInfo>, runSeq: nat,
    delivered: map<string, Texts>, fanned: map<string, Texts>)

  const EMPTY_SERVER := Server(map[], map[], 0, map[], map[])

  // ----- text tables --------------------------------------------------------

  /** Looking up a missing key yields the empty string. */
  function TextOf(texts: Texts, message: string): string {
    if message in texts then texts[message] else ""
  }

  function TextsOf(table: map<string, Texts>, session: string): Texts {
    if session in table then table[session] else map[]
  }

  function AddText(texts: Texts, message: string, delta: string): Texts {
    texts[message := TextOf(texts, message) + delta]
  }

  function AddTo(table: map<string, Texts>, session: string, message: string, delta: string): map<string, Texts> {
    table[session := AddText(TextsOf(table, session), message, delta)]
  }

  // ----- what was sent ------------------------------------------------------

  function Tagged(batch: seq<Event>, origin: Origin): (r: seq<Sent>)
    ensures |r| == |batch| && forall i :: 0 <= i < |r| ==> r[i] == Sent(batch[i], origin)
  {
    seq(|batch|, i requires 0 <= i < |batch| => Sent(batch[i], origin))
  }

  /** The text of one sent event if it belongs to the message. */
  ghost function DeltaFor(x: Sent, message: string): string {
    if x.event.Text? && !x.origin.FromBridge? && x.origin.message == message then x.event.delta else ""
  }

  /** The text deltas of a message, as they were sent, one after the other. */
  ghost function TextFor(sent: seq<Sent>, message: string): string {
    if sent == [] then "" else TextFor(sent[..|sent| - 1], message) + DeltaFor(sent[|sent| - 1], message)
  }

  /** What the event stream sent, in order. */
  ghost function StreamPart(sent: seq<Sent>): seq<Event> {
    if sent == [] then []
    else StreamPart(sent[..|sent| - 1])
         + if sent[|sent| - 1].origin.FromStream? then [sent[|sent| - 1].event] else []
  }

  /** All events as the receiver sees them. */
  ghost function Plain(sent: seq<Sent>): (r: seq<Event>)
    ensures |r| == |sent| && forall i :: 0 <= i < |r| ==> r[i] == sent[i].event
  {
    seq(|sent|, i requires 0 <= i < |sent| => sent[i].event)
  }

  lemma {:induction false} TextForConcat(a: seq<Sent>, b: seq<Sent>, message: string)
    ensures TextFor(a + b, message) == TextFor(a, message) + TextFor(b, message)
  {
    if b == [] {
      assert a + b == a && TextFor(a, message) + "" == TextFor(a, message);
    } else {
      var front, last := b[..|b| - 1], b[|b| - 1];
      TextForConcat(a, front, message);
      assert (a + b)[..|a + b| - 1] == a + front;
      Regrouped(TextFor(a, message), TextFor(front, message), DeltaFor(last, message));
    }
  }

  lemma {:induction false} StreamPartConcat(a: seq<Sent>, b: seq<Sent>)
    ensures StreamPart(a + b) == StreamPart(a) + StreamPart(b)
  {
    if b == [] {
      assert a + b == a;
    } else {
      StreamPartConcat(a, b[..|b| - 1]);
      assert (a + b)[..|a + b| - 1] == a + b[..|b| - 1];
    }
  }

  lemma {:induction false} AllDeltasConcat(a: seq<Event>, b: seq<Event>)
    ensures CardState.AllDeltas(a + b) == CardState.AllDeltas(a) + CardState.AllDeltas(b)
  {
    if b == [] {
      assert a + b == a && CardState.AllDeltas(a) + "" == CardState.AllDeltas(a);
    } else {
      AllDeltasConcat(a, b[..|b| - 1]);
      assert (a + b)[..|a + b| - 1] == a + b[..|b| - 1];
    }
  }

  ghost predicate NoText(batch: seq<Event>) {
    forall i :: 0 <= i < |batch| ==> !batch[i].Text?
  }

  /** A batch without text adds no text to any message. */
  lemma {:induction false} NoTextSent(batch: seq<Event>, origin: Origin, message: string)
    requires NoText(batch)
    ensures TextFor(Tagged(batch, origin), message) == "" && CardState.AllDeltas(batch) == ""
  {
    if batch != [] {
      NoTextSent(batch[..|batch| - 1], origin, message);
      assert Tagged(batch, origin)[..|batch| - 1] == Tagged(batch[..|batch| - 1], origin);
    }
  }

  /** A batch that begins with a text and has no other. */
  lemma OneTextSent(delta: string, rest: seq<Event>, origin: Origin, message: string)
    requires NoText(rest)
    ensures TextFor(Tagged([Text(delta)] + rest, origin), message) == DeltaFor(Sent(Text(delta), origin), message)
    ensures CardState.AllDeltas([Text(delta)] + rest) == delta
  {
    var first := [Sent(Text(delta), origin)];
    NoTextSent(rest, origin, message);
    OneSent(delta, origin, message);
    assert Tagged([Text(delta)] + rest, origin) == first + Tagged(rest, origin);
    TextForConcat(first, Tagged(rest, origin), message);
    AllDeltasConcat([Text(delta)], rest);
    NothingAdded(DeltaFor(first[0], message));
    NothingAdded(delta);
  }

  lemma OneSent(delta: string, origin: Origin, message: string)
    ensures TextFor([Sent(Text(delta), origin)], message) == DeltaFor(Sent(Text(delta), origin), message)
    ensures CardState.AllDeltas([Text(delta)]) == delta
  {
    var sent, plain := [Sent(Text(delta), origin)], [Text(delta)];
    assert sent[..|sent| - 1] == [] && plain[..|plain| - 1] == [];
    assert TextFor(sent, message) == "" + DeltaFor(sent[0], message);
    assert CardState.AllDeltas(plain) == "" + delta;
    NothingAdded(DeltaFor(sent[0], message));
    NothingAdded(delta);
  }

  lemma NothingAdded(text: string)
    ensures text + "" == text == "" + text
  {
  }

  lemma {:induction false} TaggedStreamPart(batch: seq<Event>, origin: Origin)
    ensures StreamPart(Tagged(batch, origin)) == if origin.FromStream? then batch else []
  {
    if batch != [] {
      TaggedStreamPart(batch[..|batch| - 1], origin);
      assert Tagged(batch, origin)[..|batch| - 1] == Tagged(batch[..|batch| - 1], origin);
      assert batch == batch[..|batch| - 1] + [batch[|batch| - 1]];
    }
  }

  // ----- reconciliation -----------------------------------------------------

  /** `missingText`: the part of the full text the stream never delivered; nothing
      when stream and server disagree. */
  function MissingText(delivered: string, full: string): (r: string)
    ensures delivered <= full ==> delivered + r == full
    ensures !(delivered <= full) ==> r == ""
  {
    if delivered == "" then full
    else if delivered <= full then full[|delivered|..]
    else ""
  }

  datatype Failure = Failure(name: string, message: string)

  /** The relevant part of the last assistant message. */
  datatype Message = Message(
    id: string, text: string, completed: bool, failure: Option<Failure>,
    usage: Option<Event>)

  function EndingOf(last: Message): Event {
    match last.failure
    case None => Done("", "", Normal)
    case Some(f) =>
      if f.name == "MessageAbortedError" then Done("", "", Interrupted)
      else Error("opencode: " + if f.message != "" then f.message else f.name, Failed)
  }

  function IfText(text: string): seq<Event> {
    if text != "" then [Text(text)] else []
  }

  function IfUsage(usage: Option<Event>): seq<Event> {
    if usage.Some? && usage.value.Usage? then [usage.value] else []
  }

  /** `reconcilePoll`: None while the turn is still running. */
  function ReconcilePoll(delivered: string, last: Message): Option<seq<Event>> {
    if !last.completed && last.failure.None? then None
    else Some(IfText(MissingText(delivered, last.text)) + IfUsage(last.usage) + [EndingOf(last)])
  }

  /** The poll emits at most one text, at most one usage and exactly one ending,
      in this order, and the text completes what was delivered when it can. */
  lemma ReconcileShape(delivered: string, last: Message)
    ensures ReconcilePoll(delivered, last).None? <==> !last.completed && last.failure.None?
    ensures match ReconcilePoll(delivered, last)
            case None => true
            case Some(events) =>
              && 1 <= |events| <= 3
              && (forall i :: 0 <= i < |events| && (events[i].Done? || events[i].Error?) <==> i == |events| - 1)
              && (forall i :: 0 <= i < |events| && events[i].Text? ==> i == 0 && events[i].delta != "")
              && (forall i, j :: 0 <= i < j < |events| && events[i].Usage? ==> !events[j].Usage?)
              && (delivered <= last.text ==>
                    delivered + (if events[0].Text? then events[0].delta else "") == last.text)
              && (!(delivered <= last.text) ==> !events[0].Text?)
              && (forall i :: 0 <= i < |events| && events[i].Usage? ==> last.usage == Some(events[i]))
              && (last.usage.Some? && last.usage.value.Usage? ==>
                    exists i :: 0 <= i < |events| && events[i] == last.usage.value)
              && EndsAs(last, events[|events| - 1])
  {
    var events := ReconcilePoll(delivered, last);
    if events.Some? && last.usage.Some? && last.usage.value.Usage? {
      assert events.value[|events.value| - 2] == last.usage.value;
    }
  }

  /** How a turn that is over ends: done, interrupted, or failed with the server's
      message, or its name when there is none. */
  ghost predicate EndsAs(last: Message, e: Event) {
    && (last.failure.None? ==> e.Done? && e.reason == Normal)
    && (last.failure.Some? && last.failure.value.name == "MessageAbortedError" ==> e.Done? && e.reason == Interrupted)
    && (last.failure.Some? && last.failure.value.name != "MessageAbortedError" ==>
          && e.Error? && e.reason == Failed
          && (last.failure.value.message != "" ==> e.message == "opencode: " + last.failure.value.message)
          && (last.failure.value.message == "" ==> e.message == "opencode: " + last.failure.value.name))
  }

  // ----- lock-held sections -------------------------------------------------

  function RunsOf(v: Server, session: string): set<nat> {
    if session in v.runs then v.runs[session] else {}
  }

  /** `registerRun`. */
  function AfterRegister(v: Server, session: string): Server {
    var id := v.runSeq + 1;
    v.(runSeq := id,
       info := v.info[id := RunInfo(session, [], false, 0, TextsOf(v.fanned, session))],
       runs := v.runs[session := RunsOf(v, session) + {id}])
  }

  /** Deleting a run, and its session's table with the last one. */
  function Without(runs: map<string, set<nat>>, session: string, ids: set<nat>): map<string, set<nat>> {
    if session !in runs then runs
    else if runs[session] - ids == {} then runs - {session}
    else runs[session := runs[session] - ids]
  }

  function Received(r: RunInfo, events: seq<Event>, origin: Origin): RunInfo {
    r.(events := r.events + Tagged(events, origin))
  }

  function ClosedRun(r: RunInfo): RunInfo {
    r.(closed := true, closings := r.closings + 1)
  }

  /** `closeRun`. */
  function AfterClose(v: Server, id: nat): Server {
    if id !in v.info || id !in RunsOf(v, v.info[id].session) then v
    else v.(info := v.info[id := ClosedRun(v.info[id])], runs := Without(v.runs, v.info[id].session, {id}))
  }

  /** `dispatch`, recording section: the text of a delta is noted as delivered. */
  function AfterRecord(v: Server, session: string, message: string, delta: string): Server {
    if message == "" then v else v.(delivered := AddTo(v.delivered, session, message, delta))
  }

  function Fanned(r: RunInfo, events: seq<Event>, terminal: bool, origin: Origin): RunInfo {
    var s := Received(r, events, origin);
    if terminal then ClosedRun(s) else s
  }

  /** `dispatch`, fan-out section: every run of the session gets the events; a
      terminal frame also closes them. */
  function AfterFanOut(v: Server, session: string, events: seq<Event>, terminal: bool,
                       message: string, delta: string): Server {
    var targets := RunsOf(v, session);
    v.(info := map id | id in v.info ::
             if id in targets then Fanned(v.info[id], events, terminal, FromStream(message))
             else v.info[id],
       runs := if terminal then Without(v.runs, session, targets) else v.runs,
       fanned := if message != "" then AddTo(v.fanned, session, message, delta) else v.fanned)
  }

  /** `pollRun`, last section: a run still subscribed gets the poll's events and is closed. */
  function AfterPoll(v: Server, id: nat, events: seq<Event>, message: string): Server {
    if id !in v.info || id !in RunsOf(v, v.info[id].session) then v
    else v.(info := v.info[id := ClosedRun(Received(v.info[id], events, FromPoll(message)))],
            runs := Without(v.runs, v.info[id].session, {id}))
  }

  const EXIT_EVENT := Error("opencode serve 进程意外退出", Failed)

  predicate Subscribed(v: Server, id: nat) {
    id in v.info && id in RunsOf(v, v.info[id].session)
  }

  /** The process-exit goroutine: every subscribed run is told and closed. */
  function AfterExit(v: Server): Server {
    v.(info := map id | id in v.info ::
         if Subscribed(v, id) then ClosedRun(Received(v.info[id], [EXIT_EVENT], FromBridge)) else v.info[id],
       runs := map[])
  }

  /** `safeSend` outside the lock: a closed channel swallows the event. */
  function AfterAnnounce(v: Server, id: nat, e: Event): Server {
    if id !in v.info || v.info[id].closed then v
    else v.(info := v.info[id := Received(v.info[id], [e], FromBridge)])
  }

  // ----- the protocol -------------------------------------------------------

  /** A decoded stream frame: a text delta of a message, or anything else. Frames
      other than text deltas carry no text event. */
  datatype Frame =
    | TextDelta(message: string, delta: string)
    | Other(events: seq<Event>, terminal: bool)

  ghost predicate GoodFrame(f: Frame) {
    f.Other? ==> NoText(f.events)
  }

  function FrameMessage(f: Frame): string { if f.TextDelta? then f.message else "" }
  function FrameText(f: Frame): string { if f.TextDelta? then f.delta else "" }
  function FrameEvents(f: Frame): seq<Event> { if f.TextDelta? then [Text(f.delta)] else f.events }
  function FrameTerminal(f: Frame): bool { f.Other? && f.terminal }

  /** A poller between reading the message list and closing its run. `read` is the
      delivered text it compared with. */
  datatype Poll = Poll(last: Message, read: string, events: seq<Event>)

  /** `inFlight`: the frame a session's stream is dispatching, between its two
      sections (a session has one stream, read by one loop). */
  datatype State = State(server: Server, inFlight: map<string, Frame>, polls: map<nat, Poll>)

  const START := State(EMPTY_SERVER, map[], map[])

  datatype Action =
    | Register(session: string)
    | PromptFails(id: nat)
    | Announce(id: nat, event: Event)
    | BeginDispatch(session: string, frame: Frame)
    | FanOut(session: string)
    | PollRead(id: nat, last: Message)
    | PollEnd(id: nat)
    | ProcessExits

  ghost function Step(s: State, a: Action): State {
    match a
    case Register(session) => s.(server := AfterRegister(s.server, session))
    case PromptFails(id) => s.(server := AfterClose(s.server, id))
    case Announce(id, event) => if event.Text? then s else s.(server := AfterAnnounce(s.server, id, event))
    case BeginDispatch(session, frame) =>
      if session in s.inFlight || !GoodFrame(frame) then s
      else s.(server := AfterRecord(s.server, session, FrameMessage(frame), FrameText(frame)),
              inFlight := s.inFlight[session := frame])
    case FanOut(session) =>
      if session !in s.inFlight then s
      else
        var f := s.inFlight[session];
        s.(server := AfterFanOut(s.server, session, FrameEvents(f), FrameTerminal(f), FrameMessage(f), FrameText(f)),
           inFlight := s.inFlight - {session})
    case PollRead(id, last) =>
      if !Subscribed(s.server, id) || id in s.polls || last.id == "" then s
      else
        var read := TextOf(TextsOf(s.server.delivered, s.server.info[id].session), last.id);
        var events := ReconcilePoll(read, last);
        if events.None? then s else s.(polls := s.polls[id := Poll(last, read, events.value)])
    case PollEnd(id) =>
      if id !in s.polls then s
      else
        var p := s.polls[id];
        s.(server := AfterPoll(s.server, id, p.events, p.last.id), polls := s.polls - {id})
    case ProcessExits => s.(server := AfterExit(s.server))
  }

  ghost function Run(actions: seq<Action>): State {
    if actions == [] then START else Step(Run(actions[..|actions| - 1]), actions[|actions| - 1])
  }

  // ----- run lifecycle ------------------------------------------------------

  /** A run is subscribed exactly while its channel is open, no channel is closed
      twice, and no session keeps an empty table. */
  ghost predicate LifecycleOk(v: Server) {
    && (forall id :: id in v.info <==> 1 <= id <= v.runSeq)
    && (forall session, id :: session in v.runs && id in v.runs[session] ==>
          id in v.info && v.info[id].session == session)
    && (forall id :: id in v.info ==>
          && (id in RunsOf(v, v.info[id].session) <==> !v.info[id].closed)
          && v.info[id].closings == if v.info[id].closed then 1 else 0)
    && (forall session :: session in v.runs ==> v.runs[session] != {})
  }

  lemma RegisterKeepsLifecycle(v: Server, session: string)
    requires LifecycleOk(v)
    ensures LifecycleOk(AfterRegister(v, session))
  {
    var w, new_ := AfterRegister(v, session), v.runSeq + 1;
    assert new_ !in v.info;
    assert forall id :: id in RunsOf(v, session) ==> id in v.info;
    assert forall id :: id in w.info ==> id == new_ || (id in v.info && w.info[id] == v.info[id]);
    assert forall id :: id in w.runs[session] <==> id == new_ || id in RunsOf(v, session);
    assert new_ in w.runs[session];
  }

  /** Some subscribed runs of a session are closed and dropped, the others stay. */
  lemma DropKeepsLifecycle(v: Server, session: string, ids: set<nat>, w: Server)
    requires LifecycleOk(v) && ids <= RunsOf(v, session)
    requires w.runs == Without(v.runs, session, ids) && w.runSeq == v.runSeq && w.info.Keys == v.info.Keys
    requires forall id :: id in v.info ==>
        && w.info[id].session == v.info[id].session
        && w.info[id].closed == (v.info[id].closed || id in ids)
        && w.info[id].closings == v.info[id].closings + if id in ids then 1 else 0
    ensures LifecycleOk(w)
  {
    forall id | id in w.info
      ensures id in RunsOf(w, w.info[id].session) <==> !w.info[id].closed
    {
      var own := v.info[id].session;
      assert id in RunsOf(v, own) <==> !v.info[id].closed;
      assert own == session ==> (id in RunsOf(w, own) <==> id in RunsOf(v, own) && id !in ids);
      assert own != session ==> RunsOf(w, own) == RunsOf(v, own) && id !in ids;
    }
  }

  lemma ExitKeepsLifecycle(v: Server)
    requires LifecycleOk(v)
    ensures LifecycleOk(AfterExit(v))
  {
  }

  lemma CloseKeepsLifecycle(v: Server, id: nat)
    requires LifecycleOk(v)
    ensures LifecycleOk(AfterClose(v, id))
  {
    if Subscribed(v, id) {
      DropKeepsLifecycle(v, v.info[id].session, {id}, AfterClose(v, id));
    }
  }

  lemma EndKeepsLifecycle(v: Server, id: nat, events: seq<Event>, message: string)
    requires LifecycleOk(v)
    ensures LifecycleOk(AfterPoll(v, id, events, message))
  {
    if Subscribed(v, id) {
      DropKeepsLifecycle(v, v.info[id].session, {id}, AfterPoll(v, id, events, message));
    }
  }

  lemma LifecycleStep(s: State, a: Action)
    requires LifecycleOk(s.server)
    ensures LifecycleOk(Step(s, a).server)
  {
    if a.FanOut? {
      if a.session in s.inFlight {
        FanOutKeepsLifecycle(s, a.session);
      }
    } else if a.PollEnd? {
      if a.id in s.polls {
        EndKeepsLifecycle(s.server, a.id, s.polls[a.id].events, s.polls[a.id].last.id);
      }
    } else if a.Announce? || a.BeginDispatch? || a.PollRead? {
      QuietKeepsLifecycle(s, a);
    } else {
      TableKeepsLifecycle(s, a);
    }
  }

  /** Steps that neither open nor close a run. */
  lemma QuietKeepsLifecycle(s: State, a: Action)
    requires LifecycleOk(s.server) && (a.Announce? || a.BeginDispatch? || a.PollRead?)
    ensures LifecycleOk(Step(s, a).server)
  {
  }

  lemma TableKeepsLifecycle(s: State, a: Action)
    requires LifecycleOk(s.server) && (a.Register? || a.PromptFails? || a.ProcessExits?)
    ensures LifecycleOk(Step(s, a).server)
  {
    if a.Register? {
      RegisterKeepsLifecycle(s.server, a.session);
    } else if a.PromptFails? {
      CloseKeepsLifecycle(s.server, a.id);
    } else {
      ExitKeepsLifecycle(s.server);
    }
  }

  lemma FanOutKeepsLifecycle(s: State, session: string)
    requires LifecycleOk(s.server) && session in s.inFlight
    ensures LifecycleOk(Step(s, FanOut(session)).server)
  {
    var v, w := s.server, Step(s, FanOut(session)).server;
    if FrameTerminal(s.inFlight[session]) {
      DropKeepsLifecycle(v, session, RunsOf(v, session), w);
    }
  }

  /** In every reachable state: subscribed means open, run ids are never reused,
      channels are closed at most once, no session keeps an empty table. */
  lemma {:induction false} RunLifecycle(actions: seq<Action>)
    ensures LifecycleOk(Run(actions).server)
  {
    if actions != [] {
      RunLifecycle(actions[..|actions| - 1]);
      LifecycleStep(Run(actions[..|actions| - 1]), actions[|actions| - 1]);
    }
  }

  /** Whatever happens, a closed run receives nothing more and is not closed again. */
  lemma {:induction false} ClosedForGood(past: seq<Action>, future: seq<Action>, id: nat)
    requires id in Run(past).server.info && Run(past).server.info[id].closed
    ensures id in Run(past + future).server.info
    ensures Run(past + future).server.info[id] == Run(past).server.info[id]
  {
    if future == [] {
      assert past + future == past;
    } else {
      var front, a := future[..|future| - 1], future[|future| - 1];
      ClosedForGood(past, front, id);
      RunLast(past, future);
      RunLifecycle(past + front);
      ClosedStep(Run(past + front), a, id);
    }
  }

  lemma ClosedStep(s: State, a: Action, id: nat)
    requires LifecycleOk(s.server) && id in s.server.info && s.server.info[id].closed
    ensures id in Step(s, a).server.info && Step(s, a).server.info[id] == s.server.info[id]
  {
    assert id !in RunsOf(s.server, s.server.info[id].session);
    assert forall session :: id !in RunsOf(s.server, session);
  }

  // ----- text accounting ----------------------------------------------------

  ghost function FlightText(s: State, session: string, message: string): string {
    if session in s.inFlight && FrameMessage(s.inFlight[session]) == message then FrameText(s.inFlight[session]) else ""
  }

  /** The text of a message already handed out to the runs of a session. */
  ghost function HandedOut(v: Server, session: string, message: string): string {
    TextOf(TextsOf(v.fanned, session), message)
  }

  function Delivered(v: Server, session: string, message: string): string {
    TextOf(TextsOf(v.delivered, session), message)
  }

  /** Recorded text is what was handed out plus what is in flight. */
  ghost predicate FlightOk(s: State) {
    forall session, message :: message != "" ==>
      Delivered(s.server, session, message) == HandedOut(s.server, session, message) + FlightText(s, session, message)
  }

  /** An open run was sent exactly the text handed out since it registered. */
  ghost predicate ReceivedOk(v: Server) {
    forall id, message :: id in v.info && !v.info[id].closed && message != "" ==>
      HandedOut(v, v.info[id].session, message) ==
      TextOf(v.info[id].before, message) + TextFor(v.info[id].events, message)
  }

  ghost predicate FramesOk(s: State) {
    forall session :: session in s.inFlight ==> GoodFrame(s.inFlight[session])
  }

  ghost predicate PollsOk(s: State) {
    forall id :: id in s.polls ==>
      && id in s.server.info && s.polls[id].last.id != ""
      && ReconcilePoll(s.polls[id].read, s.polls[id].last) == Some(s.polls[id].events)
  }

  ghost predicate Inv(s: State) {
    LifecycleOk(s.server) && FlightOk(s) && FramesOk(s) && ReceivedOk(s.server) && PollsOk(s)
  }

  lemma AddToText(table: map<string, Texts>, session: string, message: string, delta: string, other: string, m: string)
    ensures TextOf(TextsOf(AddTo(table, session, message, delta), other), m) ==
            if other == session && m == message then TextOf(TextsOf(table, session), message) + delta
            else TextOf(TextsOf(table, other), m)
  {
  }

  lemma FlightStep(s: State, a: Action)
    requires FlightOk(s)
    ensures FlightOk(Step(s, a))
  {
    var t := Step(s, a);
    forall session, message | message != ""
      ensures Delivered(t.server, session, message) ==
              HandedOut(t.server, session, message) + FlightText(t, session, message)
    {
      assert Delivered(s.server, session, message) ==
             HandedOut(s.server, session, message) + FlightText(s, session, message);
      match a
      case BeginDispatch(target, frame) =>
        AddToText(s.server.delivered, target, FrameMessage(frame), FrameText(frame), session, message);
      case FanOut(target) =>
        if target in s.inFlight {
          var f := s.inFlight[target];
          AddToText(s.server.fanned, target, FrameMessage(f), FrameText(f), session, message);
        }
      case _ =>
    }
  }

  /** The text a frame carries for a message. */
  lemma FrameSends(f: Frame, message: string)
    requires GoodFrame(f) && message != ""
    ensures TextFor(Tagged(FrameEvents(f), FromStream(FrameMessage(f))), message) ==
            if message == FrameMessage(f) then FrameText(f) else ""
    ensures CardState.AllDeltas(FrameEvents(f)) == FrameText(f)
  {
    if f.TextDelta? {
      assert FrameEvents(f) == [Text(f.delta)] + [];
      OneTextSent(f.delta, [], FromStream(f.message), message);
    } else {
      NoTextSent(f.events, FromStream(""), message);
    }
  }

  /** One run's account after a fan-out to its session. */
  lemma FanOutReceived(v: Server, session: string, f: Frame, id: nat, message: string)
    requires LifecycleOk(v) && ReceivedOk(v) && id in v.info && message != "" && GoodFrame(f)
    ensures var w := AfterFanOut(v, session, FrameEvents(f), FrameTerminal(f), FrameMessage(f), FrameText(f));
            !w.info[id].closed ==>
              HandedOut(w, w.info[id].session, message) ==
              TextOf(w.info[id].before, message) + TextFor(w.info[id].events, message)
  {
    var r := v.info[id];
    AddToText(v.fanned, session, FrameMessage(f), FrameText(f), r.session, message);
    assert id in RunsOf(v, r.session) <==> !r.closed;
    assert id in RunsOf(v, session) ==> r.session == session;
    if !r.closed {
      assert HandedOut(v, r.session, message) == TextOf(r.before, message) + TextFor(r.events, message);
      FrameAccount(r, f, message);
    }
  }

  lemma FrameAccount(r: RunInfo, f: Frame, m: string)
    requires m != "" && GoodFrame(f)
    ensures var delta := if m == FrameMessage(f) then FrameText(f) else "";
            && TextFor(Fanned(r, FrameEvents(f), FrameTerminal(f), FromStream(FrameMessage(f))).events, m)
               == TextFor(r.events, m) + delta
            && (TextOf(r.before, m) + TextFor(r.events, m)) + delta ==
               TextOf(r.before, m) + (TextFor(r.events, m) + delta)
            && TextFor(r.events, m) + "" == TextFor(r.events, m)
  {
    FrameSends(f, m);
    TextForConcat(r.events, Tagged(FrameEvents(f), FromStream(FrameMessage(f))), m);
  }

  lemma BridgeSends(r: RunInfo, batch: seq<Event>, m: string)
    ensures TextFor(Received(r, batch, FromBridge).events, m) == TextFor(r.events, m)
  {
    TextForConcat(r.events, Tagged(batch, FromBridge), m);
    NothingFor(batch, m);
  }

  lemma {:induction false} NothingFor(batch: seq<Event>, m: string)
    ensures TextFor(Tagged(batch, FromBridge), m) == ""
  {
    if batch != [] {
      NothingFor(batch[..|batch| - 1], m);
      assert Tagged(batch, FromBridge)[..|batch| - 1] == Tagged(batch[..|batch| - 1], FromBridge);
    }
  }

  lemma ReceivedStep(s: State, a: Action)
    requires LifecycleOk(s.server) && FramesOk(s) && ReceivedOk(s.server)
    ensures ReceivedOk(Step(s, a).server)
  {
    var v, w := s.server, Step(s, a).server;
    match a
    case FanOut(session) =>
      if session in s.inFlight {
        forall id, message | id in w.info && !w.info[id].closed && message != ""
          ensures HandedOut(w, w.info[id].session, message) ==
                  TextOf(w.info[id].before, message) + TextFor(w.info[id].events, message)
        {
          FanOutReceived(v, session, s.inFlight[session], id, message);
        }
      }
    case Announce(id, event) =>
      AnnounceReceived(v, id, event);
    case ProcessExits =>
      assert forall id :: id in w.info ==> w.info[id].closed;
    case _ =>
      assert w.fanned == v.fanned;
  }

  lemma AnnounceReceived(v: Server, id: nat, e: Event)
    requires ReceivedOk(v)
    ensures ReceivedOk(AfterAnnounce(v, id, e))
  {
    var w := AfterAnnounce(v, id, e);
    forall other, message | other in w.info && !w.info[other].closed && message != ""
      ensures HandedOut(w, w.info[other].session, message) ==
              TextOf(w.info[other].before, message) + TextFor(w.info[other].events, message)
    {
      BridgeSends(v.info[other], [e], message);
    }
  }

  lemma PollsStep(s: State, a: Action)
    requires PollsOk(s) && LifecycleOk(s.server)
    ensures PollsOk(Step(s, a))
  {
    assert s.server.info.Keys <= Step(s, a).server.info.Keys;
  }

  lemma FramesStep(s: State, a: Action)
    requires FramesOk(s)
    ensures FramesOk(Step(s, a))
  {
  }

  lemma {:induction false} RunKeepsInv(actions: seq<Action>)
    ensures Inv(Run(actions))
  {
    if actions != [] {
      var before, a := Run(actions[..|actions| - 1]), actions[|actions| - 1];
      RunKeepsInv(actions[..|actions| - 1]);
      LifecycleStep(before, a);
      FlightStep(before, a);
      FramesStep(before, a);
      ReceivedStep(before, a);
      PollsStep(before, a);
    }
  }

  // ----- backfill -----------------------------------------------------------

  /** When polling ends a run: what it missed before registering, followed by all it
      received, is what was handed out plus the poll's text. */
  lemma PollFills(s: State, id: nat)
    requires Inv(s) && id in s.polls && Subscribed(s.server, id)
    ensures var t := Step(s, PollEnd(id)).server.info[id];
            var p := s.polls[id];
            && TextOf(t.before, p.last.id) + TextFor(t.events, p.last.id) ==
               HandedOut(s.server, t.session, p.last.id) + MissingText(p.read, p.last.text)
            && t.before == s.server.info[id].before && t.session == s.server.info[id].session
            && t.closed && t.events != [] && EndsAs(p.last, t.events[|t.events| - 1].event)
  {
    PollReady(s, id);
    PollEndStep(s, id);
    PolledAccount(s.server, id, s.polls[id]);
  }

  lemma PollEndStep(s: State, id: nat)
    requires id in s.polls
    ensures Step(s, PollEnd(id)).server == AfterPoll(s.server, id, s.polls[id].events, s.polls[id].last.id)
  {
  }

  /** What the invariant says of a poll about to end an open run. */
  lemma PollReady(s: State, id: nat)
    requires Inv(s) && id in s.polls && Subscribed(s.server, id)
    ensures var (v, p) := (s.server, s.polls[id]);
            && p.last.id != "" && ReconcilePoll(p.read, p.last) == Some(p.events)
            && HandedOut(v, v.info[id].session, p.last.id) ==
               TextOf(v.info[id].before, p.last.id) + TextFor(v.info[id].events, p.last.id)
  {
    OpenAccount(s, id, s.polls[id].last.id);
  }

  lemma PolledAccount(v: Server, id: nat, p: Poll)
    requires Subscribed(v, id) && p.last.id != "" && ReconcilePoll(p.read, p.last) == Some(p.events)
    requires HandedOut(v, v.info[id].session, p.last.id) ==
             TextOf(v.info[id].before, p.last.id) + TextFor(v.info[id].events, p.last.id)
    ensures var t := AfterPoll(v, id, p.events, p.last.id).info[id];
            && TextOf(t.before, p.last.id) + TextFor(t.events, p.last.id) ==
               HandedOut(v, t.session, p.last.id) + MissingText(p.read, p.last.text)
            && t.before == v.info[id].before && t.session == v.info[id].session
            && t.closed && t.events != [] && EndsAs(p.last, t.events[|t.events| - 1].event)
  {
    var (before, sent, missing) :=
      (TextOf(v.info[id].before, p.last.id), TextFor(v.info[id].events, p.last.id), MissingText(p.read, p.last.text));
    PolledRun(v, id, p);
    Regrouped(before, sent, missing);
  }

  lemma OpenAccount(s: State, id: nat, message: string)
    requires Inv(s) && Subscribed(s.server, id) && message != ""
    ensures var r := s.server.info[id];
            HandedOut(s.server, r.session, message) == TextOf(r.before, message) + TextFor(r.events, message)
  {
    assert !s.server.info[id].closed;
  }

  /** The run after its poll: the missing text is received, the ending comes last. */
  lemma PolledRun(v: Server, id: nat, p: Poll)
    requires Subscribed(v, id) && p.last.id != "" && ReconcilePoll(p.read, p.last) == Some(p.events)
    ensures var t := AfterPoll(v, id, p.events, p.last.id).info[id];
            && TextFor(t.events, p.last.id) ==
               TextFor(v.info[id].events, p.last.id) + MissingText(p.read, p.last.text)
            && CardState.AllDeltas(p.events) == MissingText(p.read, p.last.text)
            && t.events == v.info[id].events + Tagged(p.events, FromPoll(p.last.id))
            && t.before == v.info[id].before && t.session == v.info[id].session && t.closed
            && t.events != [] && EndsAs(p.last, t.events[|t.events| - 1].event)
  {
    TextForConcat(v.info[id].events, Tagged(p.events, FromPoll(p.last.id)), p.last.id);
    ReconcileShape(p.read, p.last);
    PollSends(p);
  }

  /** The poll's batch carries the missing text and no other. */
  lemma PollSends(p: Poll)
    requires ReconcilePoll(p.read, p.last) == Some(p.events)
    ensures TextFor(Tagged(p.events, FromPoll(p.last.id)), p.last.id) == MissingText(p.read, p.last.text)
    ensures CardState.AllDeltas(p.events) == MissingText(p.read, p.last.text)
  {
    var missing := MissingText(p.read, p.last.text);
    var rest := IfUsage(p.last.usage) + [EndingOf(p.last)];
    if missing == "" {
      assert p.events == rest;
      NoTextSent(rest, FromPoll(p.last.id), p.last.id);
    } else {
      assert p.events == [Text(missing)] + rest;
      OneTextSent(missing, rest, FromPoll(p.last.id), p.last.id);
    }
  }

  /** The text of `message` that a step hands out to the runs of `session`. */
  ghost function FannedBy(s: State, a: Action, session: string, message: string): string {
    if a == FanOut(session) then FlightText(s, session, message) else ""
  }

  /** The text of `message` handed out during `mid`. */
  ghost function FannedText(past: seq<Action>, mid: seq<Action>, session: string, message: string): string {
    if mid == [] then ""
    else
      var front, a := mid[..|mid| - 1], mid[|mid| - 1];
      FannedText(past, front, session, message) + FannedBy(Run(past + front), a, session, message)
  }

  lemma HandedOutStep(s: State, a: Action, session: string, message: string)
    requires message != ""
    ensures HandedOut(Step(s, a).server, session, message) ==
            HandedOut(s.server, session, message) + FannedBy(s, a, session, message)
  {
    assert HandedOut(s.server, session, message) + "" == HandedOut(s.server, session, message);
    if a.FanOut? && a.session in s.inFlight {
      var f := s.inFlight[a.session];
      AddToText(s.server.fanned, a.session, FrameMessage(f), FrameText(f), session, message);
    }
  }

  /** What was handed out grows by exactly the text fanned out. */
  lemma {:induction false} HandedOutGrows(past: seq<Action>, mid: seq<Action>, session: string, message: string)
    requires message != ""
    ensures HandedOut(Run(past + mid).server, session, message) ==
            HandedOut(Run(past).server, session, message) + FannedText(past, mid, session, message)
  {
    if mid == [] {
      assert past + mid == past;
      assert HandedOut(Run(past).server, session, message) + "" == HandedOut(Run(past).server, session, message);
    } else {
      var front, a := mid[..|mid| - 1], mid[|mid| - 1];
      HandedOutGrows(past, front, session, message);
      RunLast(past, mid);
      HandedOutMore(Run(past + front), a, session, message,
                    HandedOut(Run(past).server, session, message), FannedText(past, front, session, message));
    }
  }

  lemma HandedOutMore(s: State, a: Action, session: string, message: string, before: string, fanned: string)
    requires message != "" && HandedOut(s.server, session, message) == before + fanned
    ensures HandedOut(Step(s, a).server, session, message) == before + (fanned + FannedBy(s, a, session, message))
  {
    HandedOutStep(s, a, session, message);
    Regrouped(before, fanned, FannedBy(s, a, session, message));
  }

  lemma RunLast(past: seq<Action>, mid: seq<Action>)
    requires mid != []
    ensures Run(past + mid) == Step(Run(past + mid[..|mid| - 1]), mid[|mid| - 1])
  {
    assert past + mid == past + mid[..|mid| - 1] + [mid[|mid| - 1]];
    RunSnoc(past + mid[..|mid| - 1], mid[|mid| - 1]);
  }

  lemma RunSnoc(actions: seq<Action>, a: Action)
    ensures Run(actions + [a]) == Step(Run(actions), a)
  {
    assert (actions + [a])[..|actions|] == actions;
  }

  lemma RunThree(actions: seq<Action>, a: Action, b: Action, c: Action)
    ensures Run(actions + [a, b, c]) == Step(Step(Step(Run(actions), a), b), c)
  {
    var one, two := actions + [a], actions + [a] + [b];
    assert actions + [a, b, c] == two + [c];
    RunSnoc(actions, a);
    RunSnoc(one, b);
    RunSnoc(two, c);
  }

  lemma Regrouped(a: string, b: string, c: string)
    ensures (a + b) + c == a + (b + c)
  {
  }

  /** Without a fan-out for the session nothing is handed out to it. */
  lemma {:induction false} NothingFanned(past: seq<Action>, mid: seq<Action>, session: string, message: string)
    requires FanOut(session) !in mid
    ensures FannedText(past, mid, session, message) == ""
  {
    if mid != [] {
      NothingFanned(past, mid[..|mid| - 1], session, message);
    }
  }

  lemma {:induction false} PollStays(past: seq<Action>, future: seq<Action>, id: nat)
    requires id in Run(past).polls && PollEnd(id) !in future
    ensures id in Run(past + future).polls && Run(past + future).polls[id] == Run(past).polls[id]
  {
    if future == [] {
      assert past + future == past;
    } else {
      var front, a := future[..|future| - 1], future[|future| - 1];
      RunLast(past, future);
      PollStays(past, front, id);
      PollKept(Run(past + front), a, id);
    }
  }

  lemma PollKept(s: State, a: Action, id: nat)
    requires id in s.polls && a != PollEnd(id)
    ensures id in Step(s, a).polls && Step(s, a).polls[id] == s.polls[id]
  {
  }

  lemma IdentityStep(s: State, a: Action, id: nat)
    requires LifecycleOk(s.server) && id in s.server.info
    ensures id in Step(s, a).server.info
    ensures Step(s, a).server.info[id].session == s.server.info[id].session
    ensures Step(s, a).server.info[id].before == s.server.info[id].before
  {
  }

  lemma {:induction false} RunStays(past: seq<Action>, future: seq<Action>, id: nat)
    requires id in Run(past).server.info
    ensures id in Run(past + future).server.info
    ensures Run(past + future).server.info[id].session == Run(past).server.info[id].session
    ensures Run(past + future).server.info[id].before == Run(past).server.info[id].before
  {
    if future == [] {
      assert past + future == past;
    } else {
      var before, a := past + future[..|future| - 1], future[|future| - 1];
      assert past + future == before + [a] && (before + [a])[..|before|] == before;
      RunStays(past, future[..|future| - 1], id);
      RunLifecycle(before);
      IdentityStep(Run(before), a, id);
    }
  }

  /** A run is subscribed and its next poll will find the turn over. */
  ghost predicate Pollable(s: State, id: nat, last: Message) {
    Subscribed(s.server, id) && id !in s.polls && last.id != "" && (last.completed || last.failure.Some?)
  }

  /** What a poll finds when it ends. */
  lemma PollHistory(past: seq<Action>, id: nat, last: Message, mid: seq<Action>)
    requires Pollable(Run(past), id, last) && PollEnd(id) !in mid
    ensures var s := Run(past);
            var u := Run(past + [PollRead(id, last)] + mid);
            var session := s.server.info[id].session;
            && id in u.polls && u.polls[id].last == last && u.polls[id].read == Delivered(s.server, session, last.id)
            && id in u.server.info && u.server.info[id].before == s.server.info[id].before
            && u.server.info[id].session == session
            && HandedOut(u.server, session, last.id) ==
               HandedOut(s.server, session, last.id) + FannedText(past + [PollRead(id, last)], mid, session, last.id)
            && Delivered(s.server, session, last.id) ==
               HandedOut(s.server, session, last.id) + FlightText(s, session, last.id)
  {
    var s := Run(past);
    var session := s.server.info[id].session;
    var read := past + [PollRead(id, last)];
    RunKeepsInv(past);
    RunSnoc(past, PollRead(id, last));
    PollStays(read, mid, id);
    HandedOutGrows(read, mid, session, last.id);
    RunStays(read, mid, id);
  }

  /** What the run was promised: the server's text if what was delivered is a prefix of it,
      and otherwise what was delivered. */
  ghost function Promised(delivered: string, full: string): string {
    if delivered <= full then full else delivered
  }

  /** The backfill, exactly. A poll compares what was delivered with the server's text and
      later ends the run; in between other steps happen. A run registered before the
      message's first text received what it was promised if and only if the text of
      that message fanned out in between is the text that was in flight, recorded but
      not yet fanned out, when the poll compared. */
  lemma Backfill(past: seq<Action>, id: nat, last: Message, mid: seq<Action>)
    requires Pollable(Run(past), id, last) && PollEnd(id) !in mid
    requires TextOf(Run(past).server.info[id].before, last.id) == ""
    requires Subscribed(Run(past + [PollRead(id, last)] + mid).server, id)
    ensures var s := Run(past);
            var session := s.server.info[id].session;
            var t := Step(Run(past + [PollRead(id, last)] + mid), PollEnd(id)).server.info[id];
            && (TextFor(t.events, last.id) == Promised(Delivered(s.server, session, last.id), last.text) <==>
                FannedText(past + [PollRead(id, last)], mid, session, last.id) == FlightText(s, session, last.id))
            && t.closed && t.events != [] && EndsAs(last, t.events[|t.events| - 1].event)
  {
    var s := Run(past);
    var session := s.server.info[id].session;
    RunKeepsInv(past + [PollRead(id, last)] + mid);
    PollHistory(past, id, last, mid);
    PollOutcome(Run(past + [PollRead(id, last)] + mid), id, HandedOut(s.server, session, last.id),
                FannedText(past + [PollRead(id, last)], mid, session, last.id), FlightText(s, session, last.id));
  }

  lemma PollOutcome(u: State, id: nat, handed: string, fanned: string, flight: string)
    requires Inv(u) && id in u.polls && Subscribed(u.server, id)
    requires TextOf(u.server.info[id].before, u.polls[id].last.id) == ""
    requires HandedOut(u.server, u.server.info[id].session, u.polls[id].last.id) == handed + fanned
    requires u.polls[id].read == handed + flight
    ensures var t := Step(u, PollEnd(id)).server.info[id];
            var p := u.polls[id];
            && (TextFor(t.events, p.last.id) == Promised(p.read, p.last.text) <==> fanned == flight)
            && t.closed && t.events != [] && EndsAs(p.last, t.events[|t.events| - 1].event)
  {
    PollFills(u, id);
    var received := TextFor(Step(u, PollEnd(id)).server.info[id].events, u.polls[id].last.id);
    assert "" + received == received;
    Cancelled(handed, fanned, flight, u.polls[id].last.text);
  }

  /** What was fanned out meanwhile and what was in flight, against the promise. */
  lemma Cancelled(handed: string, fanned: string, flight: string, full: string)
    ensures (handed + fanned) + MissingText(handed + flight, full) == Promised(handed + flight, full)
            <==> fanned == flight
  {
    var read := handed + flight;
    var missing := MissingText(read, full);
    assert Promised(read, full) == read + missing;
    assert |(handed + fanned) + missing| == |handed| + |fanned| + |missing|;
    if (handed + fanned) + missing == read + missing {
      assert fanned == ((handed + fanned) + missing)[|handed|..|handed| + |fanned|];
      assert flight == (read + missing)[|handed|..|handed| + |flight|];
    }
  }

  /** In particular the promise is kept if no frame of the session was between its two
      sections when the poll compared, and none was fanned out before the poll ended. */
  lemma QuietBackfill(past: seq<Action>, id: nat, last: Message, mid: seq<Action>)
    requires Pollable(Run(past), id, last) && PollEnd(id) !in mid
    requires TextOf(Run(past).server.info[id].before, last.id) == ""
    requires Subscribed(Run(past + [PollRead(id, last)] + mid).server, id)
    requires Run(past).server.info[id].session !in Run(past).inFlight
    requires FanOut(Run(past).server.info[id].session) !in mid
    ensures var s := Run(past);
            var t := Step(Run(past + [PollRead(id, last)] + mid), PollEnd(id)).server.info[id];
            TextFor(t.events, last.id) == Promised(Delivered(s.server, s.server.info[id].session, last.id), last.text)
  {
    Backfill(past, id, last, mid);
    NothingFanned(past + [PollRead(id, last)], mid, Run(past).server.info[id].session, last.id);
  }

  /** The condition fails in two ways. A delta that arrives between the poll's comparison
      and its end is received twice. */
  lemma RacingDeltaIsDoubled()
    ensures var last := Message("m", "Hello", true, None, None);
            var s := Run([Register("s"), BeginDispatch("s", TextDelta("m", "He")), FanOut("s"), PollRead(1, last),
                          BeginDispatch("s", TextDelta("m", "llo")), FanOut("s"), PollEnd(1)]);
            1 in s.server.info && TextFor(s.server.info[1].events, "m") == "Hellollo"
  {
    var last := Message("m", "Hello", true, None, None);
    var actions := [Register("s"), BeginDispatch("s", TextDelta("m", "He")), FanOut("s"), PollRead(1, last),
                    BeginDispatch("s", TextDelta("m", "llo")), FanOut("s"), PollEnd(1)];
    var first, second := actions[..3], actions[..6];
    assert first == [] + [actions[0], actions[1], actions[2]];
    assert second == first + [actions[3], actions[4], actions[5]];
    assert actions == second + [actions[6]];
    RunThree([], actions[0], actions[1], actions[2]);
    RunThree(first, actions[3], actions[4], actions[5]);
    RunSnoc(second, actions[6]);
    RacePartOne();
    RacePartTwo(Run(first), last);
  }

  /** A delta that is recorded but not yet fanned out when the poll compares, and still not
      when it ends the run, is lost: the poll takes it for delivered, closes the run, and
      the fan-out finds nobody. */
  lemma InFlightDeltaIsLost()
    ensures var last := Message("m", "He", true, None, None);
            var s := Run([Register("s"), BeginDispatch("s", TextDelta("m", "He")),
                          PollRead(1, last), PollEnd(1), FanOut("s")]);
            1 in s.server.info && s.server.info[1].closed && TextFor(s.server.info[1].events, "m") == ""
  {
    var last := Message("m", "He", true, None, None);
    var actions := [Register("s"), BeginDispatch("s", TextDelta("m", "He")),
                    PollRead(1, last), PollEnd(1), FanOut("s")];
    var first, second := actions[..3], actions[..4];
    assert first == [] + [actions[0], actions[1], actions[2]];
    assert second == first + [actions[3]] && actions == second + [actions[4]];
    RunThree([], actions[0], actions[1], actions[2]);
    RunSnoc(first, actions[3]);
    RunSnoc(second, actions[4]);
    LossPartOne(last);
    LossPartTwo(Run(first), last);
  }

  /** The delta is recorded and the poll misses nothing. */
  lemma LossPartOne(last: Message)
    requires last == Message("m", "He", true, None, None)
    ensures var s := Step(Step(Step(START, Register("s")), BeginDispatch("s", TextDelta("m", "He"))),
                          PollRead(1, last));
            && 1 in s.polls && s.polls[1].last == last && s.polls[1].read == "He"
            && ReconcilePoll("He", last) == Some(s.polls[1].events)
            && 1 in RunsOf(s.server, "s") && s.server.info.Keys == {1} && s.server.info[1].session == "s"
            && TextFor(s.server.info[1].events, "m") == "" && s.inFlight == map["s" := TextDelta("m", "He")]
  {
    var s1 := Step(START, Register("s"));
    assert 1 in RunsOf(s1.server, "s");
    var s2 := Step(s1, BeginDispatch("s", TextDelta("m", "He")));
    assert "" + "He" == "He" && Delivered(s2.server, "s", "m") == "He";
  }

  /** The run ends without the delta, and nobody is left to receive it. */
  lemma LossPartTwo(s: State, last: Message)
    requires last == Message("m", "He", true, None, None)
    requires 1 in s.polls && s.polls[1].last == last && s.polls[1].read == "He"
    requires ReconcilePoll("He", last) == Some(s.polls[1].events)
    requires 1 in RunsOf(s.server, "s") && s.server.info.Keys == {1} && s.server.info[1].session == "s"
    requires TextFor(s.server.info[1].events, "m") == "" && s.inFlight == map["s" := TextDelta("m", "He")]
    ensures var t := Step(Step(s, PollEnd(1)), FanOut("s"));
            1 in t.server.info && t.server.info[1].closed && TextFor(t.server.info[1].events, "m") == ""
  {
    var ended := Step(s, PollEnd(1));
    PolledRun(s.server, 1, s.polls[1]);
    assert MissingText("He", "He") == "" && "" + "" == "";
    assert ended.server.info[1].closed && 1 !in RunsOf(ended.server, "s");
  }

  /** A run that received the first delta. */
  lemma RacePartOne()
    ensures var s := Step(Step(Step(START, Register("s")), BeginDispatch("s", TextDelta("m", "He"))), FanOut("s"));
            && s.inFlight == map[] && s.polls == map[]
            && 1 in RunsOf(s.server, "s")
            && 1 in s.server.info && s.server.info[1].session == "s"
            && TextFor(s.server.info[1].events, "m") == "He" && Delivered(s.server, "s", "m") == "He"
  {
    NothingAdded("He");
    var s1 := Step(START, Register("s"));
    assert 1 in RunsOf(s1.server, "s");
    var s2 := Step(s1, BeginDispatch("s", TextDelta("m", "He")));
    assert s2.inFlight == map["s" := TextDelta("m", "He")];
    assert s2.server.info[1].events == [];
    FrameAccount(s2.server.info[1], TextDelta("m", "He"), "m");
  }

  /** The second delta arrives while the poll is about to add it as missing. */
  lemma RacePartTwo(s: State, last: Message)
    requires last == Message("m", "Hello", true, None, None)
    requires s.inFlight == map[] && s.polls == map[] && 1 in RunsOf(s.server, "s")
    requires 1 in s.server.info && s.server.info[1].session == "s"
    requires TextFor(s.server.info[1].events, "m") == "He" && Delivered(s.server, "s", "m") == "He"
    ensures var t := Step(Step(Step(Step(s, PollRead(1, last)), BeginDispatch("s", TextDelta("m", "llo"))),
                               FanOut("s")),
                          PollEnd(1));
            1 in t.server.info && TextFor(t.server.info[1].events, "m") == "Hellollo"
  {
    var c := Step(Step(Step(s, PollRead(1, last)), BeginDispatch("s", TextDelta("m", "llo"))), FanOut("s"));
    RacingFrame(s, last);
    PollEndStep(c, 1);
    DoubledText(c.server, c.polls[1]);
  }

  lemma DoubledText(v: Server, p: Poll)
    requires p.last == Message("m", "Hello", true, None, None) && p.read == "He"
    requires Subscribed(v, 1) && TextFor(v.info[1].events, "m") == "Hello"
    requires ReconcilePoll("He", p.last) == Some(p.events)
    ensures TextFor(AfterPoll(v, 1, p.events, "m").info[1].events, "m") == "Hellollo"
  {
    PolledRun(v, 1, p);
    MissingEnd();
  }

  lemma MissingEnd()
    ensures MissingText("He", "Hello") == "llo" && "Hello" + "llo" == "Hellollo"
  {
  }

  lemma RacingFrame(s: State, last: Message)
    requires last == Message("m", "Hello", true, None, None)
    requires s.inFlight == map[] && s.polls == map[] && 1 in RunsOf(s.server, "s")
    requires 1 in s.server.info && s.server.info[1].session == "s"
    requires TextFor(s.server.info[1].events, "m") == "He" && Delivered(s.server, "s", "m") == "He"
    ensures var c := Step(Step(Step(s, PollRead(1, last)), BeginDispatch("s", TextDelta("m", "llo"))), FanOut("s"));
            && Subscribed(c.server, 1) && TextFor(c.server.info[1].events, "m") == "Hello"
            && 1 in c.polls && c.polls[1].last == last && c.polls[1].read == "He"
            && ReconcilePoll("He", last) == Some(c.polls[1].events)
  {
    var a := Step(s, PollRead(1, last));
    assert a.server == s.server && a.inFlight == s.inFlight && 1 in a.polls;
    FrameComes(a);
  }

  lemma FrameComes(a: State)
    requires a.inFlight == map[] && 1 in RunsOf(a.server, "s") && 1 in a.server.info
    requires a.server.info[1].session == "s" && TextFor(a.server.info[1].events, "m") == "He"
    ensures var c := Step(Step(a, BeginDispatch("s", TextDelta("m", "llo"))), FanOut("s"));
            Subscribed(c.server, 1) && TextFor(c.server.info[1].events, "m") == "Hello" && c.polls == a.polls
  {
    var b := Step(a, BeginDispatch("s", TextDelta("m", "llo")));
    assert b.server.info == a.server.info && b.server.runs == a.server.runs;
    FrameAccount(a.server.info[1], TextDelta("m", "llo"), "m");
    assert "He" + "llo" == "Hello";
  }
}
