/** The OpenCode server object (internal/agent/opencode.go): its run tables and the
    runs' channels updated in place, each method proved against its section in
    OpenCode. Closing a channel requires it to be open, so that no channel is
    closed twice is part of what is verified. */
module OpenCodeServer {
  import opened Common
  import opened AgentEvents
  import opened OpenCode

  class OcServer {
    var runs: map<string, set<nat>>      // subscribed runs per session
    var channels: map<nat, RunInfo>      // every run's channel
    var runSeq: nat
    var delivered: map<string, Texts>
    var fanned: map<string, Texts>       // history: the code keeps no such table

    constructor ()
      ensures View() == EMPTY_SERVER
    {
      runs, channels, runSeq, delivered, fanned := map[], map[], 0, map[], map[];
    }

    ghost function View(): Server
      reads this
    {
      Server(runs, channels, runSeq, delivered, fanned)
    }

    /** `safeSend` of a batch: a closed channel swallows it. */
    method Deliver(id: nat, batch: seq<Event>, origin: Origin)
      requires id in channels
      modifies this`channels
      ensures channels == if old(channels)[id].closed then old(channels)
                          else old(channels)[id := Received(old(channels)[id], batch, origin)]
    {
      if !channels[id].closed {
        channels := channels[id := channels[id].(events := channels[id].events + Tagged(batch, origin))];
      }
    }

    method CloseChannel(id: nat)
      requires id in channels && !channels[id].closed
      modifies this`channels
      ensures channels == old(channels)[id := ClosedRun(old(channels)[id])]
    {
      channels := channels[id := ClosedRun(channels[id])];
    }

    method RegisterRun(session: string) returns (id: nat)
      requires LifecycleOk(View())
      modifies this
      ensures LifecycleOk(View()) && View() == AfterRegister(old(View()), session)
      ensures id == runSeq && id !in old(channels)
    {
      RegisterKeepsLifecycle(View(), session);
      runSeq := runSeq + 1;
      id := runSeq;
      channels := channels[id := RunInfo(session, [], false, 0, TextsOf(fanned, session))];
      var own: set<nat> := if session in runs then runs[session] else {};
      runs := runs[session := own + {id}];
    }

    /** Whether the run is still subscribed. */
    method RunRegistered(id: nat) returns (ok: bool)
      requires id in channels
      ensures ok == Subscribed(View(), id)
    {
      var session := channels[id].session;
      ok := session in runs && id in runs[session];
    }

    /** Deletes one run from its session's table, and the table with its last run. */
    method Drop(session: string, id: nat)
      requires session in runs && id in runs[session]
      modifies this`runs
      ensures runs == Without(old(runs), session, {id})
    {
      runs := runs[session := runs[session] - {id}];
      if |runs[session]| == 0 {
        runs := runs - {session};
      }
    }

    method CloseRun(id: nat)
      requires LifecycleOk(View()) && id in channels
      modifies this
      ensures LifecycleOk(View()) && View() == AfterClose(old(View()), id)
    {
      LifecycleStep(State(View(), map[], map[]), PromptFails(id));
      var registered := RunRegistered(id);
      if registered {
        Drop(channels[id].session, id);
        CloseChannel(id);
      }
    }

    /** `pollRun`, last section. */
    method EndPoll(id: nat, events: seq<Event>, message: string)
      requires LifecycleOk(View()) && id in channels
      modifies this
      ensures View() == AfterPoll(old(View()), id, events, message)
      ensures LifecycleOk(View())
    {
      EndKeepsLifecycle(View(), id, events, message);
      var registered := RunRegistered(id);
      if registered {
        Deliver(id, events, FromPoll(message));
        CloseChannel(id);
        Drop(channels[id].session, id);
      }
    }

    /** `dispatch`, recording section. */
    method RecordDelta(session: string, message: string, delta: string)
      requires LifecycleOk(View())
      modifies this`delivered
      ensures LifecycleOk(View()) && View() == AfterRecord(old(View()), session, message, delta)
    {
      if message != "" {
        var texts: Texts := if session in delivered then delivered[session] else map[];
        var text := if message in texts then texts[message] else "";
        delivered := delivered[session := texts[message := text + delta]];
      }
    }

    /** Sends a batch to some open runs, and closes them if asked to. */
    method SendToAll(targets: set<nat>, events: seq<Event>, closing: bool, origin: Origin)
      requires forall id :: id in targets ==> id in channels && !channels[id].closed
      modifies this`channels
      ensures channels == map id | id in old(channels) ::
          if id in targets then Fanned(old(channels)[id], events, closing, origin) else old(channels)[id]
    {
      var rest := targets;
      while rest != {}
        invariant rest <= targets && channels.Keys == old(channels).Keys
        invariant forall id :: id in channels ==>
            channels[id] == if id in targets && id !in rest
                            then Fanned(old(channels)[id], events, closing, origin)
                            else old(channels)[id]
        decreases rest
      {
        var id :| id in rest;
        Deliver(id, events, origin);
        if closing {
          CloseChannel(id);
        }
        rest := rest - {id};
      }
    }

    /** `dispatch`, fan-out section. */
    method FanOut(session: string, events: seq<Event>, terminal: bool, message: string, delta: string)
      requires LifecycleOk(View())
      modifies this
      ensures LifecycleOk(View()) && View() == AfterFanOut(old(View()), session, events, terminal, message, delta)
    {
      FanOutLifecycle(View(), session, events, terminal, message, delta);
      if session in runs {
        SubscribedIsOpen(View(), session);
        SendToAll(runs[session], events, terminal, FromStream(message));
        if terminal {
          runs := runs - {session};
        }
      }
      fanned := if message != "" then AddTo(fanned, session, message, delta) else fanned;
      assert runs == AfterFanOut(old(View()), session, events, terminal, message, delta).runs;
      assert channels == AfterFanOut(old(View()), session, events, terminal, message, delta).info;
    }

    /** The process-exit goroutine. */
    method ProcessExited()
      requires LifecycleOk(View())
      modifies this
      ensures LifecycleOk(View()) && View() == AfterExit(old(View()))
    {
      ghost var before := View();
      assert ToldSofar(before, runs, channels);
      while runs != map[]
        invariant runSeq == before.runSeq && delivered == before.delivered && fanned == before.fanned
        invariant ToldSofar(before, runs, channels)
        decreases runs.Keys
      {
        var session :| session in runs;
        CloseSession(session, before);
      }
      AllTold(before, channels);
    }

    method CloseSession(session: string, ghost before: Server)
      requires LifecycleOk(before) && ToldSofar(before, runs, channels) && session in runs
      modifies this`runs, this`channels
      ensures runs == old(runs) - {session} && ToldSofar(before, runs, channels)
    {
      TellOne(before, runs, channels, session);
      SendToAll(runs[session], [EXIT_EVENT], true, FromBridge);
      runs := runs - {session};
    }
  }

  lemma AllTold(before: Server, channels: map<nat, RunInfo>)
    requires LifecycleOk(before) && ToldSofar(before, map[], channels)
    ensures AfterExit(before) == before.(runs := map[], info := channels)
    ensures LifecycleOk(AfterExit(before))
  {
    ExitKeepsLifecycle(before);
  }

  /** A run is told and closed once its session is no longer listed. */
  ghost function Told(before: Server, runs: map<string, set<nat>>, id: nat): RunInfo
    requires id in before.info
  {
    if Subscribed(before, id) && before.info[id].session !in runs
    then ClosedRun(Received(before.info[id], [EXIT_EVENT], FromBridge))
    else before.info[id]
  }

  /** Exactly the runs of the sessions no longer listed have been told and closed. */
  ghost predicate ToldSofar(before: Server, runs: map<string, set<nat>>, channels: map<nat, RunInfo>) {
    && (forall session :: session in runs ==> session in before.runs && runs[session] == before.runs[session])
    && channels.Keys == before.info.Keys
    && (forall id :: id in channels ==> channels[id] == Told(before, runs, id))
  }

  lemma TellOne(before: Server, runs: map<string, set<nat>>, channels: map<nat, RunInfo>, session: string)
    requires LifecycleOk(before) && ToldSofar(before, runs, channels) && session in runs
    ensures forall id :: id in runs[session] ==> id in channels && !channels[id].closed
    ensures ToldSofar(before, runs - {session}, map id | id in channels ::
                if id in runs[session] then Fanned(channels[id], [EXIT_EVENT], true, FromBridge) else channels[id])
  {
    SubscribedIsOpen(before, session);
    forall id | id in channels
      ensures Told(before, runs - {session}, id) ==
              if id in runs[session] then Fanned(channels[id], [EXIT_EVENT], true, FromBridge) else channels[id]
    {
      assert channels[id] == Told(before, runs, id);
    }
  }

  lemma SubscribedIsOpen(v: Server, session: string)
    requires LifecycleOk(v) && session in v.runs
    ensures forall id :: id in v.runs[session] ==> id in v.info && v.info[id].session == session && !v.info[id].closed
  {
    forall id | id in v.runs[session] ensures id in v.info && v.info[id].session == session && !v.info[id].closed {
      assert v.info[id].session == session && id in RunsOf(v, session);
    }
  }

  lemma FanOutLifecycle(v: Server, session: string, events: seq<Event>, terminal: bool, message: string, delta: string)
    requires LifecycleOk(v)
    ensures LifecycleOk(AfterFanOut(v, session, events, terminal, message, delta))
  {
    if terminal {
      DropKeepsLifecycle(v, session, RunsOf(v, session), AfterFanOut(v, session, events, terminal, message, delta));
    }
  }
}
