/** What arrives on a run's channel (internal/agent/opencode.go): the events of every
    frame of its session since it registered, unchanged and in order, then at most
    the text the poll found missing; and what opens and closes the channel. */
module OpenCodeArrival {
  import opened Common
  import opened AgentEvents
  import opened OpenCode
  import opened CardState

  /** The events a step sends to the runs of `session`. */
  ghost function FannedNow(s: State, a: Action, session: string): seq<Event> {
    if a != FanOut(session) || session !in s.inFlight then []
    else
      match s.inFlight[session]
      case TextDelta(_, delta) => [Text(delta)]
      case Other(events, _) => events
  }

  ghost function FannedEvents(past: seq<Action>, mid: seq<Action>, session: string): seq<Event> {
    if mid == [] then []
    else
      var front, a := mid[..|mid| - 1], mid[|mid| - 1];
      FannedEvents(past, front, session) + FannedNow(Run(past + front), a, session)
  }

  /** The text in a list of sent events, whoever sent them. */
  ghost function SentText(sent: seq<Sent>): string {
    AllDeltas(Plain(sent))
  }

  lemma SentTextConcat(sent: seq<Sent>, batch: seq<Event>, origin: Origin)
    ensures SentText(sent + Tagged(batch, origin)) == SentText(sent) + AllDeltas(batch)
  {
    PlainConcat(sent, batch, origin);
    AllDeltasConcat(Plain(sent), batch);
  }

  lemma PlainConcat(sent: seq<Sent>, batch: seq<Event>, origin: Origin)
    ensures Plain(sent + Tagged(batch, origin)) == Plain(sent) + batch
  {
  }

  /** A batch appended to what was sent. */
  lemma BatchArrives(sent: seq<Sent>, batch: seq<Event>, origin: Origin)
    ensures StreamPart(sent + Tagged(batch, origin)) == StreamPart(sent) + if origin.FromStream? then batch else []
    ensures SentText(sent + Tagged(batch, origin)) == SentText(sent) + AllDeltas(batch)
  {
    StreamPartConcat(sent, Tagged(batch, origin));
    TaggedStreamPart(batch, origin);
    SentTextConcat(sent, batch, origin);
  }

  lemma NothingArrives(sent: seq<Sent>)
    ensures StreamPart(sent) == StreamPart(sent) + [] && SentText(sent) == SentText(sent) + AllDeltas([])
  {
  }

  lemma FrameArrives(s: State, session: string, id: nat)
    requires LifecycleOk(s.server) && session in s.inFlight
    requires id in s.server.info && id in Step(s, FanOut(session)).server.info
    requires !Step(s, FanOut(session)).server.info[id].closed
    ensures var (r, t) := (s.server.info[id], Step(s, FanOut(session)).server.info[id]);
            && !r.closed
            && StreamPart(t.events) == StreamPart(r.events) + FannedNow(s, FanOut(session), r.session)
            && SentText(t.events) == SentText(r.events) + AllDeltas(FannedNow(s, FanOut(session), r.session))
  {
    var r, f := s.server.info[id], s.inFlight[session];
    assert id in RunsOf(s.server, r.session) <==> !r.closed;
    assert id in RunsOf(s.server, session) ==> r.session == session;
    if r.session == session {
      BatchArrives(r.events, FannedNow(s, FanOut(session), session), FromStream(FrameMessage(f)));
    } else {
      NothingArrives(r.events);
    }
  }

  lemma AnnouncedArrives(s: State, id: nat, e: Event, other: nat)
    requires other in s.server.info && other in Step(s, Announce(id, e)).server.info
    ensures var (r, t) := (s.server.info[other], Step(s, Announce(id, e)).server.info[other]);
            && t.closed == r.closed
            && StreamPart(t.events) == StreamPart(r.events) && SentText(t.events) == SentText(r.events)
  {
    var r := s.server.info[other];
    BatchArrives(r.events, [e], FromBridge);
    NothingArrives(r.events);
    if !e.Text? {
      NoTextSent([e], FromBridge, "");
    }
  }

  /** What an open run was sent grows by what the step fans out to its session. */
  lemma ArrivalStep(s: State, a: Action, id: nat)
    requires LifecycleOk(s.server) && id in s.server.info
    requires id in Step(s, a).server.info && !Step(s, a).server.info[id].closed
    ensures var (r, t) := (s.server.info[id], Step(s, a).server.info[id]);
            && !r.closed
            && StreamPart(t.events) == StreamPart(r.events) + FannedNow(s, a, r.session)
            && SentText(t.events) == SentText(r.events) + AllDeltas(FannedNow(s, a, r.session))
  {
    NothingArrives(s.server.info[id].events);
    if a.FanOut? && a.session in s.inFlight {
      FrameArrives(s, a.session, id);
    } else if a.Announce? {
      AnnouncedArrives(s, a.id, a.event, id);
    } else {
      OpenRunKept(s, a, id);
    }
  }

  lemma OpenRunKept(s: State, a: Action, id: nat)
    requires LifecycleOk(s.server) && id in s.server.info && !a.Announce? && (a.FanOut? ==> a.session !in s.inFlight)
    requires id in Step(s, a).server.info && !Step(s, a).server.info[id].closed
    ensures Step(s, a).server.info[id] == s.server.info[id]
  {
  }

  /** A run of the session with an id no run had: open, subscribed, and sent nothing. */
  ghost predicate OpensRun(before: Server, after: Server, session: string) {
    var id := before.runSeq + 1;
    && id !in before.info && id in after.info && Subscribed(after, id)
    && after.info[id].session == session && after.info[id].events == [] && !after.info[id].closed
  }

  lemma RegisterOpens(past: seq<Action>, session: string)
    ensures OpensRun(Run(past).server, Run(past + [Register(session)]).server, session)
  {
    RunLifecycle(past);
    RunSnoc(past, Register(session));
    NewRunIsOpen(Run(past), session);
  }

  lemma NewRunIsOpen(s: State, session: string)
    requires LifecycleOk(s.server)
    ensures OpensRun(s.server, Step(s, Register(session)).server, session)
  {
  }

  /** From any moment on, what the stream sends to an open run are the events of every
      frame fanned out to its session, all of them, unchanged and in order; and the
      text the run is sent meanwhile is the text of these events. */
  lemma {:induction false} StreamArrives(past: seq<Action>, id: nat, mid: seq<Action>)
    requires id in Run(past).server.info
    requires id in Run(past + mid).server.info && !Run(past + mid).server.info[id].closed
    ensures var (r, t) := (Run(past).server.info[id], Run(past + mid).server.info[id]);
            var fanned := FannedEvents(past, mid, r.session);
            && StreamPart(t.events) == StreamPart(r.events) + fanned
            && SentText(t.events) == SentText(r.events) + AllDeltas(fanned)
  {
    if mid == [] {
      assert past + mid == past;
      NothingArrives(Run(past).server.info[id].events);
    } else {
      var front, a := mid[..|mid| - 1], mid[|mid| - 1];
      RunLast(past, mid);
      RunStays(past, front, id);
      RunLifecycle(past + front);
      ArrivalStep(Run(past + front), a, id);
      StreamArrives(past, id, front);
      OneMoreArrives(Run(past).server.info[id], Run(past + front), a, id,
                     FannedEvents(past, front, Run(past).server.info[id].session));
    }
  }

  lemma OneMoreArrives(r: RunInfo, s: State, a: Action, id: nat, before: seq<Event>)
    requires LifecycleOk(s.server) && id in s.server.info && s.server.info[id].session == r.session
    requires id in Step(s, a).server.info && !Step(s, a).server.info[id].closed
    requires StreamPart(s.server.info[id].events) == StreamPart(r.events) + before
    requires SentText(s.server.info[id].events) == SentText(r.events) + AllDeltas(before)
    ensures var t := Step(s, a).server.info[id];
            && StreamPart(t.events) == StreamPart(r.events) + (before + FannedNow(s, a, r.session))
            && SentText(t.events) == SentText(r.events) + AllDeltas(before + FannedNow(s, a, r.session))
  {
    var now := FannedNow(s, a, r.session);
    ArrivalStep(s, a, id);
    AllDeltasConcat(before, now);
    Regrouped(SentText(r.events), AllDeltas(before), AllDeltas(now));
    RegroupedEvents(StreamPart(r.events), before, now);
  }

  lemma RegroupedEvents(a: seq<Event>, b: seq<Event>, c: seq<Event>)
    ensures (a + b) + c == a + (b + c)
  {
  }

  /** A run still open was sent, as text, all text fanned out to its session since it
      registered. */
  lemma TextSinceRegistered(past: seq<Action>, session: string, mid: seq<Action>, id: nat)
    requires id == Run(past).server.runSeq + 1
    requires Subscribed(Run(past + [Register(session)] + mid).server, id)
    ensures SentText(Run(past + [Register(session)] + mid).server.info[id].events) ==
            AllDeltas(FannedEvents(past + [Register(session)], mid, session))
  {
    var registered := past + [Register(session)];
    RunLifecycle(registered + mid);
    SubscribedOpen(Run(registered + mid).server, id);
    RegisterOpens(past, session);
    StreamArrives(registered, id, mid);
    NothingAdded(AllDeltas(FannedEvents(registered, mid, session)));
  }

  /** The run was closed by its poll: it was sent `text` in all, and its last event says how
      the turn ended. */
  ghost predicate EndedByPoll(v: Server, id: nat, last: Message, text: string) {
    && id in v.info && v.info[id].closed && v.info[id].events != []
    && SentText(v.info[id].events) == text
    && EndsAs(last, v.info[id].events[|v.info[id].events| - 1].event)
  }

  /** A run that is ended by its poll was sent, as text, all text fanned out to its session
      since it registered and then exactly what the poll found missing; its last event
      says how the turn ended. */
  lemma PollCompletes(past: seq<Action>, session: string, mid: seq<Action>, id: nat)
    requires id == Run(past).server.runSeq + 1
    requires Subscribed(Run(past + [Register(session)] + mid).server, id)
    requires id in Run(past + [Register(session)] + mid).polls
    ensures var registered := past + [Register(session)];
            var p := Run(registered + mid).polls[id];
            EndedByPoll(Run(registered + mid + [PollEnd(id)]).server, id, p.last,
                        AllDeltas(FannedEvents(registered, mid, session)) + MissingText(p.read, p.last.text))
  {
    var before := past + [Register(session)] + mid;
    TextSinceRegistered(past, session, mid, id);
    RunKeepsInv(before);
    RunSnoc(before, PollEnd(id));
    PolledText(Run(before), id);
  }

  lemma PolledText(s: State, id: nat)
    requires Inv(s) && Subscribed(s.server, id) && id in s.polls
    ensures var p := s.polls[id];
            EndedByPoll(Step(s, PollEnd(id)).server, id, p.last,
                        SentText(s.server.info[id].events) + MissingText(p.read, p.last.text))
  {
    PollReady(s, id);
    PollEndStep(s, id);
    PolledRun(s.server, id, s.polls[id]);
    SentTextConcat(s.server.info[id].events, s.polls[id].events, FromPoll(s.polls[id].last.id));
  }

  lemma SubscribedOpen(v: Server, id: nat)
    requires LifecycleOk(v) && id in v.info
    ensures Subscribed(v, id) <==> !v.info[id].closed
  {
  }

  /** Each of the four actors does close an open run: a failed prompt silently, a terminal
      frame after its events (any other frame leaves it open), a poll after its events,
      and the end of the process with an error. */
  lemma EveryActorCloses(past: seq<Action>, id: nat)
    requires id in Run(past).server.info && !Run(past).server.info[id].closed
    ensures var s := Run(past);
            var r := s.server.info[id];
            && IsClosedAs(Run(past + [PromptFails(id)]), id, r.events)
            && (r.session in s.inFlight ==>
                  var v := Run(past + [FanOut(r.session)]).server;
                  id in v.info && (v.info[id].closed <==> IsTerminal(s.inFlight[r.session])))
            && (id in s.polls ==>
                  IsClosedAs(Run(past + [PollEnd(id)]), id,
                             r.events + Tagged(s.polls[id].events, FromPoll(s.polls[id].last.id))))
            && IsClosedAs(Run(past + [ProcessExits]), id,
                          r.events + [Sent(Error("opencode serve 进程意外退出", Failed), FromBridge)])
  {
    var s := Run(past);
    RunLifecycle(past);
    RunSnoc(past, PromptFails(id));
    RunSnoc(past, FanOut(s.server.info[id].session));
    RunSnoc(past, PollEnd(id));
    RunSnoc(past, ProcessExits);
    ClosersStep(s, id);
  }

  ghost predicate IsTerminal(f: Frame) {
    f.Other? && f.terminal
  }

  ghost predicate IsClosedAs(s: State, id: nat, events: seq<Sent>) {
    id in s.server.info && s.server.info[id].closed && s.server.info[id].events == events
  }

  lemma ClosersStep(s: State, id: nat)
    requires LifecycleOk(s.server) && id in s.server.info && !s.server.info[id].closed
    ensures var r := s.server.info[id];
            && IsClosedAs(Step(s, PromptFails(id)), id, r.events)
            && (r.session in s.inFlight ==>
                  var v := Step(s, FanOut(r.session)).server;
                  id in v.info && (v.info[id].closed <==> IsTerminal(s.inFlight[r.session])))
            && (id in s.polls ==>
                  IsClosedAs(Step(s, PollEnd(id)), id,
                             r.events + Tagged(s.polls[id].events, FromPoll(s.polls[id].last.id))))
            && IsClosedAs(Step(s, ProcessExits), id,
                          r.events + [Sent(Error("opencode serve 进程意外退出", Failed), FromBridge)])
  {
    SubscribedOpen(s.server, id);
    assert Tagged([EXIT_EVENT], FromBridge) == [Sent(EXIT_EVENT, FromBridge)];
  }

  /** The bridge's own announcements reach an open run, and a poll that finds the turn over
      takes the text recorded for the message at that moment. */
  lemma AnnounceArrives(past: seq<Action>, id: nat, e: Event)
    requires id in Run(past).server.info && !Run(past).server.info[id].closed && !e.Text?
    ensures var v := Run(past + [Announce(id, e)]).server;
            id in v.info && v.info[id].events == Run(past).server.info[id].events + [Sent(e, FromBridge)]
  {
    RunSnoc(past, Announce(id, e));
    assert Tagged([e], FromBridge) == [Sent(e, FromBridge)];
  }
}
