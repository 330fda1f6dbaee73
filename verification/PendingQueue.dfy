/** The debounce queue (internal/bridge/queue.go) together with its only consumer,
    `flush` (internal/bridge/bridge.go). Timers may expire at any moment, an expired
    timer can no longer be stopped, and between the unlock in `fire` and the `Block`
    of `flush` anything may happen. */
module PendingQueue {
  import opened Common

  datatype Message = Message(id: string, text: string)

  /** `scopeQueue`; `created` says that the map has an entry. */
  datatype Queue = Queue(created: bool, buffer: seq<Message>, timer: Option<nat>, blocked: bool)

  /** The runtime's timers of a scope: scheduled, or expired with `fire` yet to run. */
  datatype Timers = Timers(armed: set<nat>, firing: set<nat>, last: nat)

  const NO_QUEUE := Queue(false, [], None, false)
  const NO_TIMERS := Timers({}, {}, 0)

  // ----- lock-held sections -------------------------------------------------

  /** `Stop`: has no effect on a timer that already expired. */
  function Stopped(t: Timers, timer: Option<nat>): Timers {
    if timer.Some? then t.(armed := t.armed - {timer.value}) else t
  }

  /** `armLocked`. */
  function Armed(q: Queue, t: Timers): (Queue, Timers) {
    if q.blocked then (q, t)
    else
      var stopped := Stopped(t, q.timer);
      (q.(timer := Some(t.last + 1)), stopped.(armed := stopped.armed + {t.last + 1}, last := t.last + 1))
  }

  /** `Push`. */
  function AfterPush(q: Queue, t: Timers, m: Message): (Queue, Timers) {
    Armed(q.(created := true, buffer := q.buffer + [m]), t)
  }

  /** `Block`. */
  function AfterBlock(q: Queue, t: Timers): (Queue, Timers) {
    if !q.created then (q, t) else (q.(blocked := true, timer := None), Stopped(t, q.timer))
  }

  /** `Unblock`. */
  function AfterUnblock(q: Queue, t: Timers): (Queue, Timers) {
    if !q.created then (q, t)
    else if q.buffer == [] then (q.(blocked := false), t)
    else Armed(q.(blocked := false), t)
  }

  /** `fire`: takes the whole buffer, unless there is nothing to take or the scope is
      blocked. */
  function AfterFire(q: Queue): (Queue, Option<seq<Message>>) {
    if !q.created || q.blocked || q.buffer == [] then (q, None)
    else (q.(buffer := [], timer := None), Some(q.buffer))
  }

  // ----- the queue object ---------------------------------------------------

  class DebounceQueue {
    var queues: map<string, Queue>     // absent: no entry
    var timers: map<string, Timers>    // the runtime's side of `time.AfterFunc`

    ghost function QueueOf(scope: string): Queue
      reads this
    {
      if scope in queues then queues[scope] else NO_QUEUE
    }

    ghost function TimersOf(scope: string): Timers
      reads this
    {
      if scope in timers then timers[scope] else NO_TIMERS
    }

    ghost predicate Valid()
      reads this
    {
      forall scope :: scope in queues ==> queues[scope].created
    }

    twostate predicate OnlyTouches(scope: string)
      reads this
    {
      && (forall other :: other in old(queues) && other != scope ==>
            other in queues && queues[other] == old(queues)[other])
      && (forall other :: other in old(timers) && other != scope ==>
            other in timers && timers[other] == old(timers)[other])
      && (forall other :: other in queues ==> other == scope || other in old(queues))
      && (forall other :: other in timers ==> other == scope || other in old(timers))
    }

    constructor ()
      ensures Valid() && queues == map[] && timers == map[]
    {
      queues, timers := map[], map[];
    }

    method StopTimer(scope: string, timer: Option<nat>)
      modifies this`timers
      ensures TimersOf(scope) == Stopped(old(TimersOf(scope)), timer) && OnlyTouches(scope)
    {
      if timer.Some? && scope in timers {
        timers := timers[scope := timers[scope].(armed := timers[scope].armed - {timer.value})];
      }
    }

    method ArmLocked(scope: string)
      requires Valid() && scope in queues
      modifies this
      ensures Valid() && OnlyTouches(scope)
      ensures (QueueOf(scope), TimersOf(scope)) == Armed(old(QueueOf(scope)), old(TimersOf(scope)))
    {
      var sq := queues[scope];
      if sq.blocked {
        return;
      }
      if sq.timer.Some? {
        StopTimer(scope, sq.timer);
      }
      var running := if scope in timers then timers[scope] else NO_TIMERS;
      var armedId := running.last + 1;
      timers := timers[scope := running.(armed := running.armed + {armedId}, last := armedId)];
      queues := queues[scope := sq.(timer := Some(armedId))];
    }

    method Push(scope: string, m: Message)
      requires Valid()
      modifies this
      ensures Valid() && OnlyTouches(scope)
      ensures (QueueOf(scope), TimersOf(scope)) == AfterPush(old(QueueOf(scope)), old(TimersOf(scope)), m)
    {
      var sq := if scope in queues then queues[scope] else NO_QUEUE.(created := true);
      queues := queues[scope := sq.(buffer := sq.buffer + [m])];
      ArmLocked(scope);
    }

    method Block(scope: string)
      requires Valid()
      modifies this
      ensures Valid() && OnlyTouches(scope)
      ensures (QueueOf(scope), TimersOf(scope)) == AfterBlock(old(QueueOf(scope)), old(TimersOf(scope)))
    {
      if scope in queues {
        var sq := queues[scope];
        queues := queues[scope := sq.(blocked := true, timer := None)];
        StopTimer(scope, sq.timer);
      }
    }

    method Unblock(scope: string)
      requires Valid()
      modifies this
      ensures Valid() && OnlyTouches(scope)
      ensures (QueueOf(scope), TimersOf(scope)) == AfterUnblock(old(QueueOf(scope)), old(TimersOf(scope)))
    {
      if scope !in queues {
        return;
      }
      queues := queues[scope := queues[scope].(blocked := false)];
      if |queues[scope].buffer| > 0 {
        ArmLocked(scope);
      }
    }

    method Fire(scope: string) returns (batch: Option<seq<Message>>)
      requires Valid()
      modifies this`queues
      ensures Valid() && OnlyTouches(scope)
      ensures (QueueOf(scope), batch) == AfterFire(old(QueueOf(scope)))
    {
      if scope !in queues || queues[scope].blocked || |queues[scope].buffer| == 0 {
        return None;
      }
      var sq := queues[scope];
      batch := Some(sq.buffer);
      queues := queues[scope := sq.(buffer := [], timer := None)];
    }
  }

  // ----- interleavings ------------------------------------------------------

  /** One scope: its queue and timers, the batches taken so far, and which of them are
      between `fire` and `Block` (`flushing`) or between `Block` and `Unblock`
      (`running`). `pushed` and `overlap` are history; `overlap` says that a batch
      was taken while another one was flushing. */
  datatype Scope = Scope(
    queue: Queue, timers: Timers, batches: seq<seq<Message>>, flushing: set<nat>, running: set<nat>,
    pushed: seq<Message>, overlap: bool)

  const IDLE := Scope(NO_QUEUE, NO_TIMERS, [], {}, {}, [], false)

  datatype Event =
    | Push(message: Message)
    | Expire(timer: nat)
    | Fire(timer: nat)
    | Block(batch: nat)
    | Unblock(batch: nat)

  ghost function With(s: Scope, after: (Queue, Timers)): Scope {
    s.(queue := after.0, timers := after.1)
  }

  ghost function AfterTake(s: Scope): Scope {
    var (queue, batch) := AfterFire(s.queue);
    if batch.None? then s
    else s.(queue := queue, batches := s.batches + [batch.value], flushing := s.flushing + {|s.batches|},
            overlap := s.overlap || s.flushing != {})
  }

  ghost function Step(s: Scope, e: Event): Scope {
    match e
    case Push(m) => With(s, AfterPush(s.queue, s.timers, m)).(pushed := s.pushed + [m])
    case Expire(t) =>
      if t in s.timers.armed
      then s.(timers := s.timers.(armed := s.timers.armed - {t}, firing := s.timers.firing + {t})) else s
    case Fire(t) =>
      if t in s.timers.firing
      then AfterTake(s.(timers := s.timers.(firing := s.timers.firing - {t}))) else s
    case Block(n) =>
      if n in s.flushing
      then With(s, AfterBlock(s.queue, s.timers)).(flushing := s.flushing - {n}, running := s.running + {n}) else s
    case Unblock(n) =>
      if n in s.running
      then With(s, AfterUnblock(s.queue, s.timers)).(running := s.running - {n}) else s
  }

  ghost function Run(events: seq<Event>): Scope {
    if events == [] then IDLE else Step(Run(events[..|events| - 1]), events[|events| - 1])
  }

  // ----- many scopes --------------------------------------------------------

  ghost function ScopeOf(m: map<string, Scope>, scope: string): Scope {
    if scope in m then m[scope] else IDLE
  }

  ghost function RunAll(events: seq<(string, Event)>): map<string, Scope> {
    if events == [] then map[]
    else
      var before, last := RunAll(events[..|events| - 1]), events[|events| - 1];
      before[last.0 := Step(ScopeOf(before, last.0), last.1)]
  }

  ghost function EventsOf(events: seq<(string, Event)>, scope: string): seq<Event> {
    if events == [] then []
    else
      EventsOf(events[..|events| - 1], scope) +
      if events[|events| - 1].0 == scope then [events[|events| - 1].1] else []
  }

  /** Scopes do not influence each other: what happens in one is the run of its own
      events, so every theorem below holds in every scope of every interleaving. */
  lemma {:induction false} ScopesAreIndependent(events: seq<(string, Event)>, scope: string)
    ensures ScopeOf(RunAll(events), scope) == Run(EventsOf(events, scope))
  {
    if events != [] {
      var last := events[|events| - 1];
      var mine := EventsOf(events[..|events| - 1], scope);
      ScopesAreIndependent(events[..|events| - 1], scope);
      if last.0 == scope {
        assert EventsOf(events, scope) == mine + [last.1];
        assert (mine + [last.1])[..|mine|] == mine;
      } else {
        assert EventsOf(events, scope) == mine;
      }
    }
  }

  // ----- invariant ----------------------------------------------------------

  ghost predicate Conserved(s: Scope) {
    && s.pushed == Flatten(s.batches) + s.queue.buffer
    && (forall i :: 0 <= i < |s.batches| ==> s.batches[i] != [])
    && (forall n :: n in s.flushing ==> n < |s.batches| && n !in s.running)
    && (forall n :: n in s.running ==> n < |s.batches|)
    && (s.pushed != [] ==> s.queue.created)
    && (!s.queue.created ==> s == IDLE)
  }

  ghost predicate Live(s: Scope, timer: Option<nat>) {
    timer.Some? && (timer.value in s.timers.armed || timer.value in s.timers.firing)
  }

  /** A waiting buffer has the queue's own timer coming, and a blocked scope has a run
      that will unblock it. */
  ghost predicate Awaited(s: Scope) {
    && (!s.queue.blocked && s.queue.buffer != [] ==> Live(s, s.queue.timer))
    && (s.queue.blocked ==> s.running != {})
    && (forall t :: t in s.timers.armed ==> t <= s.timers.last && t !in s.timers.firing)
    && (forall t :: t in s.timers.firing ==> t <= s.timers.last)
  }

  ghost function InFlight(s: Scope): set<nat> { s.flushing + s.running }

  ghost predicate AtMostOne(s: Scope) {
    forall i, j :: i in InFlight(s) && j in InFlight(s) ==> i == j
  }

  /** As long as no batch was taken during another one's flush. */
  ghost predicate Exclusive(s: Scope) {
    !s.overlap ==> AtMostOne(s) && (s.queue.blocked <==> s.running != {})
  }

  lemma PushKeepsConserved(s: Scope, m: Message)
    requires Conserved(s)
    ensures Conserved(Step(s, Push(m)))
  {
    assert s.pushed + [m] == Flatten(s.batches) + (s.queue.buffer + [m]);
  }

  lemma FlushKeepsConserved(s: Scope, e: Event)
    requires Conserved(s) && (e.Block? || e.Unblock?)
    ensures Conserved(Step(s, e))
  {
  }

  lemma ExpireKeepsConserved(s: Scope, t: nat)
    requires Conserved(s)
    ensures Conserved(Step(s, Expire(t)))
  {
  }

  lemma StepKeepsConserved(s: Scope, e: Event)
    requires Conserved(s)
    ensures Conserved(Step(s, e))
  {
    match e
    case Push(m) => PushKeepsConserved(s, m);
    case Expire(t) => ExpireKeepsConserved(s, t);
    case Fire(t) => TakeKeepsConserved(s, t);
    case Block(_) => FlushKeepsConserved(s, e);
    case Unblock(_) => FlushKeepsConserved(s, e);
  }

  lemma TakeKeepsConserved(s: Scope, t: nat)
    requires Conserved(s)
    ensures Conserved(Step(s, Fire(t)))
  {
    if t in s.timers.firing {
      FireKeepsConserved(s.(timers := s.timers.(firing := s.timers.firing - {t})));
    }
  }

  lemma FlattenTaken(batches: seq<seq<Message>>, buffer: seq<Message>)
    ensures Flatten(batches + [buffer]) + [] == Flatten(batches) + buffer
  {
    FlattenSnoc(batches, buffer);
  }

  lemma FireKeepsConserved(s: Scope)
    requires Conserved(s.(timers := NO_TIMERS)) && (!s.queue.created ==> s.(timers := NO_TIMERS) == IDLE)
    ensures AfterTake(s).pushed == Flatten(AfterTake(s).batches) + AfterTake(s).queue.buffer
    ensures forall i :: 0 <= i < |AfterTake(s).batches| ==> AfterTake(s).batches[i] != []
  {
    if AfterFire(s.queue).1.Some? {
      FlattenTaken(s.batches, s.queue.buffer);
    }
  }

  lemma StepKeepsAwaited(s: Scope, e: Event)
    requires Awaited(s) && Conserved(s)
    ensures Awaited(Step(s, e))
  {
    if e.Block? && e.batch in s.flushing {
      assert e.batch in Step(s, e).running;
    }
  }

  lemma StepKeepsExclusive(s: Scope, e: Event)
    requires Exclusive(s) && Conserved(s)
    ensures Exclusive(Step(s, e))
  {
    var t := Step(s, e);
    if e.Block? && e.batch in s.flushing {
      assert e.batch in t.running && e.batch in InFlight(s);
    }
    assert forall n :: n in InFlight(s) <==> n in s.flushing || n in s.running;
  }

  lemma {:induction false} RunKeepsInv(events: seq<Event>)
    ensures Conserved(Run(events)) && Awaited(Run(events)) && Exclusive(Run(events))
  {
    if events != [] {
      var front, last := events[..|events| - 1], events[|events| - 1];
      RunKeepsInv(front);
      StepKeepsConserved(Run(front), last);
      StepKeepsAwaited(Run(front), last);
      StepKeepsExclusive(Run(front), last);
    }
  }

  // ----- theorems -----------------------------------------------------------

  /** Every message pushed is in exactly one taken batch or still in the buffer, in the
      order of the pushes, and no batch is empty. */
  lemma {:induction false} NothingLostOrReordered(events: seq<Event>)
    ensures var s := Run(events);
            && s.pushed == Flatten(s.batches) + s.queue.buffer
            && (forall i :: 0 <= i < |s.batches| ==> s.batches[i] != [])
  {
    RunKeepsInv(events);
  }

  /** A step takes at most one batch: the whole buffer, and only while unblocked. */
  lemma TakesTheBuffer(s: Scope, e: Event)
    ensures var t := Step(s, e);
            t.batches == s.batches
            || (!s.queue.blocked && t.batches == s.batches + [s.queue.buffer] && t.queue.buffer == [])
  {
  }

  /** Whenever an unblocked scope has messages waiting, the queue's own timer is
      scheduled or has expired, and when it fires it takes them all. A blocked scope
      has a run in flight whose end unblocks it, and that schedules a timer. */
  lemma NoMessageForgotten(events: seq<Event>, n: nat)
    requires Run(events).queue.buffer != []
    ensures var s := Run(events);
            && (!s.queue.blocked ==>
                  && s.queue.timer.Some?
                  && var t := s.queue.timer.value;
                     Step(Step(s, Expire(t)), Fire(t)).batches == s.batches + [s.queue.buffer])
            && (s.queue.blocked ==> s.running != {})
            && (n in s.running ==>
                  var after := Step(s, Unblock(n));
                  !after.queue.blocked && after.queue.timer.Some? && after.queue.timer.value in after.timers.armed)
  {
    RunKeepsInv(events);
  }

  /** Hence when nothing is left to happen, every message has been handed over. */
  lemma QuietMeansDrained(events: seq<Event>)
    requires var s := Run(events);
             s.timers.armed == {} && s.timers.firing == {} && s.flushing == {} && s.running == {}
    ensures Run(events).pushed == Flatten(Run(events).batches)
  {
    RunKeepsInv(events);
    assert Flatten(Run(events).batches) + [] == Flatten(Run(events).batches);
  }

  lemma {:induction false} OverlapStays(events: seq<Event>, n: nat)
    requires n <= |events| && Run(events[..n]).overlap
    ensures Run(events).overlap
  {
    if n == |events| {
      assert events[..n] == events;
    } else {
      var front := events[..|events| - 1];
      assert front[..n] == events[..n];
      OverlapStays(front, n);
    }
  }

  /** A take during another flush leaves two batches in flight. */
  lemma {:induction false} OverlapMeansTwo(events: seq<Event>) returns (n: nat)
    requires Run(events).overlap
    ensures n <= |events| && !AtMostOne(Run(events[..n]))
  {
    var front, last := events[..|events| - 1], events[|events| - 1];
    if Run(front).overlap {
      n := OverlapMeansTwo(front);
      assert front[..n] == events[..n];
    } else {
      n := |events|;
      assert events[..n] == events;
      RunKeepsInv(front);
      var old_ :| old_ in Run(front).flushing;
      assert old_ in InFlight(Run(events)) && |Run(front).batches| in InFlight(Run(events));
    }
  }

  /** At most one batch of a scope is in flight at any time exactly when no timer takes
      a batch between the unlock in `fire` and the `Block` in `flush` of another one. */
  lemma OneRunAtATime(events: seq<Event>)
    ensures (forall n :: 0 <= n <= |events| ==> AtMostOne(Run(events[..n]))) <==> !Run(events).overlap
  {
    if Run(events).overlap {
      var n := OverlapMeansTwo(events);
    } else {
      forall n | 0 <= n <= |events| ensures AtMostOne(Run(events[..n])) {
        if Run(events[..n]).overlap {
          OverlapStays(events, n);
        }
        RunKeepsInv(events[..n]);
      }
    }
  }

  /** Under the same condition `Unblock` ends the very run that blocked the scope: it is
      the only one in flight, it belongs to the newest batch, and nothing is in
      flight afterwards. */
  lemma UnblockEndsItsOwnRun(events: seq<Event>, n: nat)
    requires !Run(events).overlap && n in Run(events).running
    ensures var s := Run(events);
            && s.queue.blocked && InFlight(s) == {n} && n == |s.batches| - 1
            && InFlight(Step(s, Unblock(n))) == {} && !Step(s, Unblock(n)).queue.blocked
  {
    RunKeepsInv(events);
    NewestInFlight(events, n);
    assert n in InFlight(Run(events));
    assert InFlight(Run(events)) == {n};
  }

  lemma {:induction false} NewestInFlight(events: seq<Event>, n: nat)
    requires !Run(events).overlap && n in InFlight(Run(events))
    ensures n == |Run(events).batches| - 1
  {
    var front, last := events[..|events| - 1], events[|events| - 1];
    RunKeepsInv(front);
    RunKeepsInv(events);
    if n in InFlight(Run(front)) {
      NewestInFlight(front, n);
    }
  }

  /** The condition can fail: a second timer fires in the gap, two runs are in flight,
      and the end of the first unblocks the scope under the second. */
  lemma TwoTimersTwoRuns(a: Message, b: Message)
    ensures var events := [Push(a), Expire(1), Fire(1), Push(b), Expire(2), Fire(2), Block(0), Block(1), Unblock(0)];
            && Run(events[..8]).running == {0, 1}
            && Run(events).running == {1} && !Run(events).queue.blocked
  {
    TakeOneIs(IDLE, a);
    TakeOneIs(TakeOne(IDLE, a), b);
    TakeOneSteps(IDLE, a);
    RunThree([], Push(a), Expire(1), Fire(1));
    var one := [Push(a), Expire(1), Fire(1)];
    assert [] + one == one;
    assert Run(one) == TakeOne(IDLE, a);
    TakeOneSteps(Run(one), b);
    RunThree(one, Push(b), Expire(2), Fire(2));
    var two := one + [Push(b), Expire(2), Fire(2)];
    RunSnoc(two, Block(0));
    RunSnoc(two + [Block(0)], Block(1));
    RunSnoc(two + [Block(0)] + [Block(1)], Unblock(0));
    assert Run(two).flushing == {0, 1};
    assert Run(two + [Block(0)] + [Block(1)]).running == {0, 1};
    var all := [Push(a), Expire(1), Fire(1), Push(b), Expire(2), Fire(2), Block(0), Block(1), Unblock(0)];
    assert all == two + [Block(0)] + [Block(1)] + [Unblock(0)] && all[..8] == two + [Block(0)] + [Block(1)];
    assert {0, 1} - {0} == {1};
  }

  ghost function TakeOne(s: Scope, m: Message): Scope {
    var pushed := Step(s, Push(m));
    Step(Step(pushed, Expire(pushed.timers.last)), Fire(pushed.timers.last))
  }

  lemma TakeOneIs(s: Scope, m: Message)
    requires s.queue.buffer == [] && s.queue.timer == None && !s.queue.blocked
    requires s.timers.armed == {} == s.timers.firing
    ensures TakeOne(s, m) ==
            Scope(Queue(true, [], None, false), Timers({}, {}, s.timers.last + 1), s.batches + [[m]],
                  s.flushing + {|s.batches|}, s.running, s.pushed + [m], s.overlap || s.flushing != {})
  {
    var t := s.timers.last + 1;
    var pushed := Step(s, Push(m));
    assert pushed.timers == Timers({t}, {}, t);
    assert Step(pushed, Expire(t)).timers == Timers({}, {t}, t);
    assert [] + [m] == [m];
  }

  lemma TakeOneSteps(s: Scope, m: Message)
    requires !s.queue.blocked
    ensures var t := s.timers.last + 1;
            Step(Step(Step(s, Push(m)), Expire(t)), Fire(t)) == TakeOne(s, m)
  {
    assert Step(s, Push(m)).timers.last == s.timers.last + 1;
  }

  lemma RunThree(events: seq<Event>, a: Event, b: Event, c: Event)
    ensures Run(events + [a, b, c]) == Step(Step(Step(Run(events), a), b), c)
  {
    RunSnoc(events, a);
    RunSnoc(events + [a], b);
    RunSnoc(events + [a] + [b], c);
    assert events + [a, b, c] == events + [a] + [b] + [c];
  }

  lemma RunSnoc(events: seq<Event>, e: Event)
    ensures Run(events + [e]) == Step(Run(events), e)
  {
    assert (events + [e])[..|events|] == events;
  }

  // ----- timers -------------------------------------------------------------

  /** The queue has a timer of its own that no step used before, scheduled in place of
      the one it had; a superseded timer that already expired cannot be stopped. */
  ghost predicate Rearmed(s: Scope, t: Scope) {
    && t.queue.timer.Some?
    && var id := t.queue.timer.value;
       && id !in s.timers.armed && id !in s.timers.firing
       && t.timers.armed == {id} + (if s.queue.timer.Some? then s.timers.armed - {s.queue.timer.value}
                                    else s.timers.armed)
       && t.timers.firing == s.timers.firing
  }

  /** A push appends its message and starts the waiting time afresh, unless the scope is
      blocked: then nothing is scheduled. */
  lemma PushRestartsTimer(events: seq<Event>, m: Message)
    ensures var (s, t) := (Run(events), Run(events + [Push(m)]));
            && t.queue.buffer == s.queue.buffer + [m] && t.queue.blocked == s.queue.blocked
            && (!s.queue.blocked ==> Rearmed(s, t))
            && (s.queue.blocked ==> t.timers == s.timers && t.queue.timer == s.queue.timer)
  {
    RunKeepsInv(events);
    RunSnoc(events, Push(m));
  }

  /** The beginning of a run blocks the scope and stops its timer, so that what comes in
      meanwhile stays in the buffer. */
  lemma BlockStopsTimer(events: seq<Event>, n: nat)
    requires n in Run(events).flushing
    ensures var (s, t) := (Run(events), Run(events + [Block(n)]));
            && t.queue.blocked && t.queue.buffer == s.queue.buffer && t.queue.timer == None
            && t.timers.firing == s.timers.firing
            && t.timers.armed == (if s.queue.timer.Some? then s.timers.armed - {s.queue.timer.value}
                                  else s.timers.armed)
            && t.running == s.running + {n} && t.flushing == s.flushing - {n}
  {
    RunKeepsInv(events);
    RunSnoc(events, Block(n));
  }

  /** The end of a run unblocks the scope, and starts the waiting time if messages came in
      meanwhile, and only then. */
  lemma UnblockRestartsTimer(events: seq<Event>, n: nat)
    requires n in Run(events).running
    ensures var (s, t) := (Run(events), Run(events + [Unblock(n)]));
            && !t.queue.blocked && t.queue.buffer == s.queue.buffer && t.running == s.running - {n}
            && (s.queue.buffer != [] ==> Rearmed(s, t))
            && (s.queue.buffer == [] ==> t.timers == s.timers)
  {
    RunKeepsInv(events);
    RunSnoc(events, Unblock(n));
  }

  /** An expired timer takes the whole buffer exactly when the scope is unblocked and has
      messages; the batch is then on its way to a run. */
  lemma ExpiredTimerTakes(events: seq<Event>, timer: nat)
    requires timer in Run(events).timers.firing
    ensures var (s, t) := (Run(events), Run(events + [Fire(timer)]));
            if !s.queue.blocked && s.queue.buffer != [] then
              && t.batches == s.batches + [s.queue.buffer] && t.queue.buffer == [] && |s.batches| in t.flushing
            else
              t.batches == s.batches && t.queue == s.queue && t.flushing == s.flushing
  {
    RunKeepsInv(events);
    RunSnoc(events, Fire(timer));
  }
}
