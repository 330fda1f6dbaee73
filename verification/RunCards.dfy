/** A run and its cards (internal/bridge/bridge.go, internal/bridge/run_card.go): a run
    streams into a card, moves to a new card after every question it asks, can be
    stopped or refreshed through the buttons of its card, and is tidied up at the end.

    Runs of different scopes, stop clicks, refresh clicks and the idle watchdog
    interleave. A stream is abstracted to what CardStream proves of it while no push
    fails: `Update` keeps the latest snapshot and `Finish` shows it. */
module RunCards {
  import opened Common
  import opened AgentEvents
  import opened CardState
  import opened CardSummary

  // ----- shared state -------------------------------------------------------

  /** One streaming card. Two fields are history: `closing` is the closing snapshot stored
      by the run itself; `slipped` belongs to the last refresh click that stored a
      snapshot after it and before `Finish`, and lists the events published when that
      click read the run. */
  datatype Stream = Stream(
    owner: string, message: string, card: string, started: bool, latest: Option<RunState>,
    closing: Option<RunState>, slipped: Option<seq<Event>>, finishes: nat, shown: Option<RunState>)

  /** `activeRun`; `published` (history) lists the agent events its state accounts for. */
  datatype RunObject = RunObject(owner: string, stream: nat, state: RunState, published: seq<Event>)

  /** `runs` and `routes` (`cardScopes`) are the maps under `runsMu`, `active` is the
      file of active cards; objects and streams live on after they leave the maps. */
  datatype Shared = Shared(
    runs: map<string, nat>, objects: seq<RunObject>, routes: map<string, string>,
    active: map<string, string>, streams: seq<Stream>)

  const NOTHING := Shared(map[], [], map[], map[], [])

  // ----- sections -----------------------------------------------------------

  /** The object of a new run and its unstarted stream. */
  function AfterBegin(v: Shared, scope: string): Shared {
    v.(objects := v.objects + [RunObject(scope, |v.streams|, INITIAL, [])],
       runs := v.runs[scope := |v.objects|],
       streams := v.streams + [Stream(scope, "", "", false, None, None, None, 0, None)])
  }

  function AfterStart(v: Shared, k: nat, message: string, card: string): Shared
    requires k < |v.streams|
  {
    v.(streams := v.streams[k := v.streams[k].(started := true, message := message, card := card)])
  }

  function AfterSave(v: Shared, scope: string, k: nat): Shared
    requires k < |v.streams|
  {
    v.(active := v.active[scope := v.streams[k].card])
  }

  function AfterRoute(v: Shared, scope: string, k: nat): Shared
    requires k < |v.streams|
  {
    v.(routes := v.routes[v.streams[k].message := scope])
  }

  /** The routing section of a rotation. */
  function AfterMove(v: Shared, scope: string, old_: nat, next: nat, state: RunState, events: seq<Event>): Shared
    requires old_ < |v.streams| && next < |v.streams|
    requires scope in v.runs ==> v.runs[scope] < |v.objects|
  {
    var routes := v.routes - {v.streams[old_].message};
    v.(routes := if v.streams[next].message != "" then routes[v.streams[next].message := scope] else routes,
       objects := if scope in v.runs
                  then v.objects[v.runs[scope] := RunObject(v.objects[v.runs[scope]].owner, next, state, events)]
                  else v.objects)
  }

  /** `Stream.Update` by the run itself. */
  function AfterUpdate(v: Shared, k: nat, state: RunState): Shared
    requires k < |v.streams|
  {
    v.(streams := v.streams[k := v.streams[k].(latest := Some(state))])
  }

  /** The run's last `Update` of a stream. */
  function AfterClosing(v: Shared, k: nat, state: RunState): Shared
    requires k < |v.streams|
  {
    v.(streams := v.streams[k := v.streams[k].(latest := Some(state), closing := Some(state))])
  }

  function AfterFinish(v: Shared, k: nat): Shared
    requires k < |v.streams|
  {
    v.(streams := v.streams[k := v.streams[k].(finishes := v.streams[k].finishes + 1, shown := v.streams[k].latest)])
  }

  /** `Stream.Update` by a refresh click. */
  function AfterRefresh(v: Shared, k: nat, state: RunState, published: seq<Event>): Shared
    requires k < |v.streams|
  {
    var s := v.streams[k];
    v.(streams := v.streams[k := s.(
         latest := Some(state),
         slipped := if s.closing.Some? && s.finishes == 0 then Some(published) else s.slipped)])
  }

  function AfterPublish(v: Shared, scope: string, state: RunState, events: seq<Event>): Shared
    requires scope in v.runs ==> v.runs[scope] < |v.objects|
  {
    if scope !in v.runs then v
    else v.(objects := v.objects[v.runs[scope] := v.objects[v.runs[scope]].(state := state, published := events)])
  }

  /** `stopRun`, the idle watchdog, and the deferred removal. */
  function AfterStop(v: Shared, scope: string): Shared {
    v.(runs := v.runs - {scope})
  }

  function AfterForget(v: Shared, scope: string): Shared {
    v.(active := v.active - {scope})
  }

  function AfterUnroute(v: Shared, k: nat): Shared
    requires k < |v.streams|
  {
    v.(routes := v.routes - {v.streams[k].message})
  }

  // ----- goroutines ---------------------------------------------------------

  /** Where `runBatch` of a scope stands. */
  datatype Phase =
    | Starting                        // object filed, card not yet sent
    | Saving | Routing                // card sent; to be saved, then routed
    | Live                            // in the event loop
    | Publishing                      // about to note the new state in the run object
    | MoveSaving | MoveRouting        // rotation: `other` is the new stream
    | MoveClosing | MoveFinishing     // rotation: `other` is the superseded stream
    | Ending                          // loop left, final state chosen
    | Forgetting | Finishing | Unrouting | Unregistering

  /** Three fields are history: `events` lists the events folded so far, `stopHit` says that
      a stop removed the run from the registry, `cutOff` that it was not registered any
      more when the loop ended. */
  datatype Thread = Thread(
    phase: Phase, object_: nat, stream: nat, other: nat, state: RunState,
    idleFired: bool, events: seq<Event>, stopHit: bool, cutOff: bool)

  /** A refresh click: it found a run object, then read its fields, then updates. */
  datatype Refresher = Found(object_: nat) | Read(stream: nat, state: RunState, published: seq<Event>) | Gone

  datatype State = State(shared: Shared, threads: map<string, Thread>, refreshers: map<nat, Refresher>)

  const QUIET := State(NOTHING, map[], map[])

  datatype Action =
    | BeginRun(scope: string)         // only when the scope has no run
    | StartCard(scope: string, ok: bool, message: string, card: string)
    | AgentSays(scope: string, event: Event)
    | Heartbeat(scope: string)
    | Rotate(scope: string, ok: bool, message: string, card: string)
    | IdleFires(scope: string)
    | LoopEnds(scope: string)
    | Advance(scope: string)          // the next section of a run that has no choice
    | Stop(scope: string)
    | RefreshLook(n: nat, message: string)
    | RefreshRead(n: nat)
    | RefreshUpdate(n: nat)

  ghost predicate At(s: State, scope: string, phase: Phase) {
    scope in s.threads && s.threads[scope].phase == phase
  }

  /** Message ids are unique; an empty one stands for a reply without an id. */
  ghost predicate FreshMessage(v: Shared, message: string) {
    message == "" || forall k :: 0 <= k < |v.streams| ==> v.streams[k].message != message
  }

  ghost function Go(s: State, scope: string, shared: Shared, t: Thread): State {
    s.(shared := shared, threads := s.threads[scope := t])
  }

  /** The state shown when the run ends. */
  function Final(t: Thread, registered: bool): RunState {
    Finalized(t.state, t.idleFired, !registered)
  }

  ghost predicate Indexed(s: State, scope: string) {
    && scope in s.threads
    && s.threads[scope].stream < |s.shared.streams| && s.threads[scope].other < |s.shared.streams|
    && (scope in s.shared.runs ==> s.shared.runs[scope] < |s.shared.objects|)
  }

  ghost function Advanced(s: State, scope: string): State
    requires Indexed(s, scope)
  {
    var v, t := s.shared, s.threads[scope];
    match t.phase
    case Saving => Go(s, scope, AfterSave(v, scope, t.stream), t.(phase := Routing))
    case Routing => Go(s, scope, AfterRoute(v, scope, t.stream), t.(phase := Live))
    case Publishing => Go(s, scope, AfterPublish(v, scope, t.state, t.events), t.(phase := Live))
    case MoveSaving => Go(s, scope, AfterSave(v, scope, t.other), t.(phase := MoveRouting))
    case MoveRouting =>
      Go(s, scope, AfterMove(v, scope, t.stream, t.other, t.state, t.events),
         t.(phase := MoveClosing, stream := t.other, other := t.stream))
    case MoveClosing => Go(s, scope, AfterClosing(v, t.other, Marked(t.state, Continued)), t.(phase := MoveFinishing))
    case MoveFinishing => Go(s, scope, AfterFinish(v, t.other), t.(phase := Live, other := t.stream))
    case Ending => Go(s, scope, AfterClosing(v, t.stream, t.state), t.(phase := Forgetting))
    case Forgetting => Go(s, scope, AfterForget(v, scope), t.(phase := Finishing))
    case Finishing => Go(s, scope, AfterFinish(v, t.stream), t.(phase := Unrouting))
    case Unrouting => Go(s, scope, AfterUnroute(v, t.stream), t.(phase := Unregistering))
    case Unregistering => State(AfterStop(v, scope), s.threads - {scope}, s.refreshers)
    case _ => s
  }

  ghost function Step(s: State, a: Action): State {
    var v := s.shared;
    match a
    case BeginRun(scope) =>
      if scope in s.threads then s
      else Go(s, scope, AfterBegin(v, scope),
              Thread(Starting, |v.objects|, |v.streams|, |v.streams|, INITIAL, false, [], false, false))
    case StartCard(scope, ok, message, card) =>
      if !At(s, scope, Starting) || !FreshMessage(v, message) || !Indexed(s, scope) then s
      else
        var t := s.threads[scope];
        if ok then Go(s, scope, AfterStart(v, t.stream, message, card), t.(phase := Saving))
        else Go(s, scope, v, t.(phase := Unregistering))
    case AgentSays(scope, e) =>
      if !At(s, scope, Live) || !Indexed(s, scope) then s
      else
        var t := s.threads[scope];
        Go(s, scope, AfterUpdate(v, t.stream, Reduce(t.state, e)),
           t.(phase := Publishing, state := Reduce(t.state, e), events := t.events + [e]))
    case Heartbeat(scope) =>
      if !At(s, scope, Live) || !Indexed(s, scope) || s.threads[scope].state.fields.terminal != Running then s
      else Go(s, scope, AfterUpdate(v, s.threads[scope].stream, s.threads[scope].state),
              s.threads[scope].(phase := Publishing))
    case Rotate(scope, ok, message, card) =>
      if !At(s, scope, Live) || !FreshMessage(v, message) || !ok then s
      else Go(s, scope, v.(streams := v.streams + [Stream(scope, message, card, true, None, None, None, 0, None)]),
              s.threads[scope].(phase := MoveSaving, other := |v.streams|))
    case IdleFires(scope) =>
      if !At(s, scope, Live) then s
      else Go(s, scope, AfterStop(v, scope), s.threads[scope].(idleFired := true))
    case LoopEnds(scope) =>
      if !At(s, scope, Live) then s
      else
        var registered := scope in v.runs;
        Go(s, scope, v,
           s.threads[scope].(phase := Ending, state := Final(s.threads[scope], registered), cutOff := !registered))
    case Advance(scope) => if Indexed(s, scope) then Advanced(s, scope) else s
    case Stop(scope) =>
      if scope !in v.runs || scope !in s.threads then s
      else Go(s, scope, AfterStop(v, scope), s.threads[scope].(stopHit := true))
    case RefreshLook(n, message) =>
      if n in s.refreshers || message !in v.routes || v.routes[message] !in v.runs then s
      else s.(refreshers := s.refreshers[n := Found(v.runs[v.routes[message]])])
    case RefreshRead(n) =>
      if n !in s.refreshers || !s.refreshers[n].Found? || s.refreshers[n].object_ >= |v.objects| then s
      else
        var o := v.objects[s.refreshers[n].object_];
        s.(refreshers := s.refreshers[n := Read(o.stream, o.state, o.published)])
    case RefreshUpdate(n) =>
      if n !in s.refreshers || !s.refreshers[n].Read? || s.refreshers[n].stream >= |v.streams| then s
      else s.(shared := AfterRefresh(v, s.refreshers[n].stream, s.refreshers[n].state, s.refreshers[n].published),
              refreshers := s.refreshers[n := Gone])
  }

  ghost function Run(actions: seq<Action>): State {
    if actions == [] then QUIET else Step(Run(actions[..|actions| - 1]), actions[|actions| - 1])
  }

  // ----- invariant ----------------------------------------------------------

  ghost predicate Rotating(p: Phase) {
    p.MoveSaving? || p.MoveRouting? || p.MoveClosing? || p.MoveFinishing?
  }

  /** In these phases the thread's stream has its message routed. */
  ghost predicate Routes(p: Phase) {
    !p.Starting? && !p.Saving? && !p.Routing? && !p.Unregistering?
  }

  /** The stream named in the file of active cards. */
  ghost function ActiveStream(t: Thread): Option<nat> {
    match t.phase
    case Starting => None
    case Saving => None
    case MoveRouting => Some(t.other)
    case Finishing => None
    case Unrouting => None
    case Unregistering => None
    case _ => Some(t.stream)
  }

  /** The streams a thread still has to finish. */
  ghost predicate Uses(t: Thread, k: nat) {
    || (k == t.stream && !t.phase.Unrouting? && !t.phase.Unregistering?)
    || (k == t.other && Rotating(t.phase))
  }

  ghost predicate InUse(s: State, k: nat)
    requires k < |s.shared.streams|
  {
    var owner := s.shared.streams[k].owner;
    owner in s.threads && Uses(s.threads[owner], k)
  }

  ghost predicate ThreadOk(v: Shared, scope: string, t: Thread) {
    && t.stream < |v.streams| && v.streams[t.stream].owner == scope
    && t.other < |v.streams| && v.streams[t.other].owner == scope
    && (t.stream == t.other <==> !Rotating(t.phase))
    && t.object_ < |v.objects| && v.objects[t.object_].owner == scope
    && (t.phase.Starting? ==> !v.streams[t.stream].started)
    && (!t.phase.Starting? && !t.phase.Unregistering? ==> v.streams[t.stream].started)
    && v.streams[t.other].started == v.streams[t.stream].started
    && (scope in v.runs ==> v.runs[scope] == t.object_ && v.objects[t.object_].stream == t.stream)
    && (scope in v.runs <==> !t.stopHit && !t.idleFired)
  }

  ghost predicate ThreadsOk(s: State) {
    && (forall scope :: scope in s.threads ==> ThreadOk(s.shared, scope, s.threads[scope]))
    && (forall scope :: scope in s.shared.runs ==> scope in s.threads)
  }

  ghost predicate StreamsOk(v: Shared) {
    && (forall j, k :: 0 <= j < k < |v.streams| && v.streams[j].message == v.streams[k].message ==>
          v.streams[k].message == "")
    && (forall k :: 0 <= k < |v.streams| && !v.streams[k].started ==> v.streams[k].message == "")
    && (forall o :: 0 <= o < |v.objects| ==> v.objects[o].stream < |v.streams|)
  }

  ghost predicate ActiveOne(s: State, scope: string) {
    if scope in s.threads && ActiveStream(s.threads[scope]).Some? then
      var k := ActiveStream(s.threads[scope]).value;
      k < |s.shared.streams| && scope in s.shared.active && s.shared.active[scope] == s.shared.streams[k].card
    else scope !in s.shared.active
  }

  ghost predicate FinishOne(s: State, k: nat)
    requires k < |s.shared.streams|
  {
    s.shared.streams[k].finishes == if s.shared.streams[k].started && !InUse(s, k) then 1 else 0
  }

  /** The thread has stored the closing snapshot of stream `k` but not finished it. */
  ghost predicate ClosingNow(t: Thread, k: nat) {
    || (k == t.other && t.phase.MoveFinishing?)
    || (k == t.stream && (t.phase.Forgetting? || t.phase.Finishing?))
  }

  ghost function LastStored(r: Stream): Option<RunState> {
    if r.slipped.Some? then Some(Fold(r.slipped.value)) else r.closing
  }

  ghost predicate ShownOk(s: State, k: nat)
    requires k < |s.shared.streams|
  {
    var r := s.shared.streams[k];
    && (r.closing.Some? <==>
          r.finishes > 0 || (r.owner in s.threads && ClosingNow(s.threads[r.owner], k)))
    && (r.closing.Some? ==> r.closing.value.fields.terminal != Running)
    && (r.closing.None? ==> r.slipped.None?)
    && (r.closing.Some? && r.finishes == 0 ==> r.latest == LastStored(r))
    && (r.finishes > 0 ==> r.shown == LastStored(r))
  }

  ghost predicate EndingOk(s: State) {
    forall scope :: scope in s.threads && s.threads[scope].phase.Ending? ==>
      s.threads[scope].state.fields.terminal != Running
  }

  /** In the event loop the run's state is the fold of what its agent said. */
  ghost predicate Folded(s: State, scope: string) {
    scope in s.threads && s.threads[scope].phase !in {Ending, Forgetting, Finishing, Unrouting, Unregistering} ==>
      s.threads[scope].state == Fold(s.threads[scope].events)
  }

  /** A run object, and a refresh click that read it, hold the fold of what was published. */
  ghost predicate PublishedOk(s: State) {
    && (forall o :: 0 <= o < |s.shared.objects| ==> s.shared.objects[o].state == Fold(s.shared.objects[o].published))
    && (forall n :: n in s.refreshers && s.refreshers[n].Read? ==>
          s.refreshers[n].state == Fold(s.refreshers[n].published))
  }

  /** What is published of a run is what its agent said so far; while the run is
      registered only an event whose publication is under way may be missing. */
  ghost predicate Said(s: State, scope: string) {
    scope in s.threads && s.threads[scope].object_ < |s.shared.objects| ==>
      var t := s.threads[scope];
      var published := s.shared.objects[t.object_].published;
      published <= t.events && (scope in s.shared.runs && !t.phase.Publishing? ==> published == t.events)
  }

  /** How a run ended, told from what its agent said. */
  ghost function Outcome(t: Thread): RunState {
    Finalized(Fold(t.events), t.idleFired, t.cutOff)
  }

  /** The run has stored its closing snapshot. */
  ghost predicate Closed(v: Shared, t: Thread)
    requires t.stream < |v.streams|
  {
    t.phase.Forgetting? || t.phase.Finishing? || t.phase.Unrouting?
    || (t.phase.Unregistering? && v.streams[t.stream].started)
  }

  /** From the end of the loop on, the state chosen is the outcome, and it is what is
      stored as the closing snapshot. */
  ghost predicate OutcomeOk(s: State, scope: string) {
    scope in s.threads && s.threads[scope].stream < |s.shared.streams| ==>
      var t := s.threads[scope];
      && (t.phase.Ending? ==> t.state == Outcome(t))
      && (Closed(s.shared, t) ==> s.shared.streams[t.stream].closing == Some(Outcome(t)))
  }

  ghost predicate Inv(s: State) {
    && ThreadsOk(s) && StreamsOk(s.shared) && EndingOk(s) && PublishedOk(s)
    && (forall scope :: Folded(s, scope) && OutcomeOk(s, scope) && Said(s, scope))
    && (forall m, scope :: RouteOne(s, m, scope))
    && (forall scope :: ActiveOne(s, scope))
    && (forall k :: 0 <= k < |s.shared.streams| ==> StreamOk(s, k))
  }

  // ----- what a step of one run leaves alone ----------------------------------

  /** The scope whose run takes the step; None for refresh clicks. */
  ghost function ScopeOf(a: Action): Option<string> {
    match a
    case RefreshLook(_, _) => None
    case RefreshRead(_) => None
    case RefreshUpdate(_) => None
    case _ => Some(a.scope)
  }

  ghost predicate Frame(v: Shared, w: Shared, scope: string) {
    && |v.streams| <= |w.streams| && |v.objects| <= |w.objects|
    && (forall k :: 0 <= k < |v.streams| ==>
          w.streams[k].owner == v.streams[k].owner
          && (v.streams[k].owner != scope ==> w.streams[k] == v.streams[k]))
    && (forall k :: |v.streams| <= k < |w.streams| ==> w.streams[k].owner == scope)
    && (forall o :: 0 <= o < |v.objects| ==>
          w.objects[o].owner == v.objects[o].owner && (v.objects[o].owner != scope ==> w.objects[o] == v.objects[o]))
    && (forall other :: other != scope ==> (other in w.runs <==> other in v.runs))
    && (forall other :: other != scope && other in v.runs ==> w.runs[other] == v.runs[other])
    && (forall other :: other != scope ==> (other in w.active <==> other in v.active))
    && (forall other :: other != scope && other in v.active ==> w.active[other] == v.active[other])
  }

  ghost predicate SameThreads(s: State, t: State, scope: string) {
    && (forall other :: other != scope ==> (other in t.threads <==> other in s.threads))
    && (forall other :: other != scope && other in s.threads ==> t.threads[other] == s.threads[other])
  }

  lemma FrameStream(v: Shared, scope: string, k: nat, r: Stream)
    requires k < |v.streams| && v.streams[k].owner == scope == r.owner
    ensures Frame(v, v.(streams := v.streams[k := r]), scope)
  {
  }

  lemma FrameObject(v: Shared, scope: string, o: nat, r: RunObject, routes: map<string, string>)
    requires o < |v.objects| && v.objects[o].owner == scope == r.owner
    ensures Frame(v, v.(objects := v.objects[o := r], routes := routes), scope)
  {
  }

  lemma FrameMaps(v: Shared, scope: string, runs: map<string, nat>, active: map<string, string>,
                  routes: map<string, string>)
    requires runs == v.runs || runs == v.runs - {scope}
    requires active == v.active || active == v.active - {scope}
             || (scope in active && active == v.active[scope := active[scope]])
    ensures Frame(v, v.(runs := runs, active := active, routes := routes), scope)
  {
  }

  /** Sections that touch a stream or a run object. */
  lemma AdvanceFrameTables(s: State, scope: string)
    requires scope in s.threads && ThreadOk(s.shared, scope, s.threads[scope])
    requires s.threads[scope].phase in {Publishing, MoveRouting, MoveClosing, MoveFinishing, Ending, Finishing}
    ensures Frame(s.shared, Advanced(s, scope).shared, scope)
  {
    var v, t, w := s.shared, s.threads[scope], Advanced(s, scope).shared;
    if t.phase.Publishing? || t.phase.MoveRouting? {
      if scope in v.runs {
        FrameObject(v, scope, t.object_, w.objects[t.object_], w.routes);
      } else {
        FrameMaps(v, scope, v.runs, v.active, w.routes);
      }
    } else {
      var k := if t.phase.MoveClosing? || t.phase.MoveFinishing? then t.other else t.stream;
      FrameStream(v, scope, k, w.streams[k]);
    }
  }

  lemma AdvanceFrame(s: State, scope: string)
    requires scope in s.threads && ThreadOk(s.shared, scope, s.threads[scope])
    ensures Frame(s.shared, Advanced(s, scope).shared, scope)
    ensures SameThreads(s, Advanced(s, scope), scope)
  {
    AdvanceOwnThread(s, scope);
    if s.threads[scope].phase in {Publishing, MoveRouting, MoveClosing, MoveFinishing, Ending, Finishing} {
      AdvanceFrameTables(s, scope);
    } else {
      AdvanceFrameMaps(s, scope);
    }
  }

  lemma AdvanceOwnThread(s: State, scope: string)
    requires Indexed(s, scope)
    ensures SameThreads(s, Advanced(s, scope), scope)
  {
  }

  lemma AdvanceFrameMaps(s: State, scope: string)
    requires scope in s.threads && ThreadOk(s.shared, scope, s.threads[scope])
    requires s.threads[scope].phase !in {Publishing, MoveRouting, MoveClosing, MoveFinishing, Ending, Finishing}
    ensures Frame(s.shared, Advanced(s, scope).shared, scope)
  {
    var w := Advanced(s, scope).shared;
    FrameMaps(s.shared, scope, w.runs, w.active, w.routes);
  }

  lemma StepFrame(s: State, a: Action, scope: string)
    requires ScopeOf(a) == Some(scope)
    requires scope in s.threads ==> ThreadOk(s.shared, scope, s.threads[scope])
    ensures Frame(s.shared, Step(s, a).shared, scope)
    ensures SameThreads(s, Step(s, a), scope)
  {
    if a.Advance? {
      if scope in s.threads {
        AdvanceFrame(s, scope);
      }
    } else if a.BeginRun? || a.StartCard? || a.Rotate? {
      SendFrame(s, a, scope);
    } else {
      RestFrame(s, a, scope);
    }
  }

  lemma SendFrame(s: State, a: Action, scope: string)
    requires ScopeOf(a) == Some(scope) && (a.BeginRun? || a.StartCard? || a.Rotate?)
    requires scope in s.threads ==> ThreadOk(s.shared, scope, s.threads[scope])
    ensures Frame(s.shared, Step(s, a).shared, scope)
    ensures SameThreads(s, Step(s, a), scope)
  {
  }

  lemma RestFrame(s: State, a: Action, scope: string)
    requires ScopeOf(a) == Some(scope) && !a.Advance? && !a.BeginRun? && !a.StartCard? && !a.Rotate?
    requires scope in s.threads ==> ThreadOk(s.shared, scope, s.threads[scope])
    ensures Frame(s.shared, Step(s, a).shared, scope)
    ensures SameThreads(s, Step(s, a), scope)
  {
  }

  lemma OwnBegin(s: State, scope: string)
    requires scope in s.threads ==> ThreadOk(s.shared, scope, s.threads[scope])
    requires scope in s.shared.runs ==> scope in s.threads
    ensures var t := Step(s, BeginRun(scope)); scope in t.threads && ThreadOk(t.shared, scope, t.threads[scope])
  {
  }

  lemma OwnRotate(s: State, a: Action, scope: string)
    requires a.Rotate? && a.scope == scope
    requires scope in s.threads && ThreadOk(s.shared, scope, s.threads[scope])
    ensures var t := Step(s, a); scope in t.threads && ThreadOk(t.shared, scope, t.threads[scope])
  {
  }

  lemma OwnStart(s: State, a: Action, scope: string)
    requires a.StartCard? && a.scope == scope
    requires scope in s.threads && ThreadOk(s.shared, scope, s.threads[scope])
    ensures var t := Step(s, a); scope in t.threads && ThreadOk(t.shared, scope, t.threads[scope])
  {
  }

  lemma OwnThread(s: State, a: Action, scope: string)
    requires ScopeOf(a) == Some(scope) && !a.Advance? && !a.BeginRun? && !a.StartCard? && !a.Rotate?
    requires scope in s.threads ==> ThreadOk(s.shared, scope, s.threads[scope])
    requires scope in s.shared.runs ==> scope in s.threads
    ensures var t := Step(s, a); scope in t.threads ==> ThreadOk(t.shared, scope, t.threads[scope])
    ensures var t := Step(s, a); scope in t.shared.runs ==> scope in t.threads
  {
  }

  lemma OwnMove(s: State, scope: string)
    requires scope in s.threads && ThreadOk(s.shared, scope, s.threads[scope])
    requires s.threads[scope].phase in {MoveSaving, MoveRouting, MoveClosing, MoveFinishing}
    ensures var t := Advanced(s, scope); scope in t.threads && ThreadOk(t.shared, scope, t.threads[scope])
  {
  }

  lemma OwnOpening(s: State, scope: string)
    requires scope in s.threads && ThreadOk(s.shared, scope, s.threads[scope])
    requires s.threads[scope].phase in {Saving, Routing, Publishing, Starting, Live}
    ensures var t := Advanced(s, scope); scope in t.threads && ThreadOk(t.shared, scope, t.threads[scope])
  {
  }

  lemma OwnEnding(s: State, scope: string)
    requires scope in s.threads && ThreadOk(s.shared, scope, s.threads[scope])
    requires s.threads[scope].phase in {Ending, Forgetting, Finishing, Unrouting, Unregistering}
    ensures var t := Advanced(s, scope); scope in t.threads ==> ThreadOk(t.shared, scope, t.threads[scope])
    ensures var t := Advanced(s, scope); scope in t.shared.runs ==> scope in t.threads
  {
  }

  lemma OtherThread(v: Shared, w: Shared, scope: string, other: string, t: Thread)
    requires Frame(v, w, scope) && other != scope && ThreadOk(v, other, t)
    ensures ThreadOk(w, other, t)
  {
  }

  lemma OwnStep(s: State, a: Action, scope: string)
    requires ScopeOf(a) == Some(scope)
    requires scope in s.threads ==> ThreadOk(s.shared, scope, s.threads[scope])
    requires scope in s.shared.runs ==> scope in s.threads
    ensures var t := Step(s, a); scope in t.threads ==> ThreadOk(t.shared, scope, t.threads[scope])
    ensures var t := Step(s, a); scope in t.shared.runs ==> scope in t.threads
  {
    if a.BeginRun? {
      OwnBegin(s, scope);
    } else if a.StartCard? {
      if scope in s.threads {
        OwnStart(s, a, scope);
      }
    } else if a.Rotate? {
      if scope in s.threads {
        OwnRotate(s, a, scope);
      }
    } else if !a.Advance? {
      OwnThread(s, a, scope);
    } else if scope in s.threads {
      if Rotating(s.threads[scope].phase) {
        OwnMove(s, scope);
      } else if s.threads[scope].phase in {Saving, Routing, Publishing, Starting, Live} {
        OwnOpening(s, scope);
      } else {
        OwnEnding(s, scope);
      }
    }
  }

  lemma AllThreads(s: State, t: State, scope: string)
    requires ThreadsOk(s) && Frame(s.shared, t.shared, scope) && SameThreads(s, t, scope)
    requires scope in t.threads ==> ThreadOk(t.shared, scope, t.threads[scope])
    requires scope in t.shared.runs ==> scope in t.threads
    ensures ThreadsOk(t)
  {
    forall other | other in t.threads && other != scope ensures ThreadOk(t.shared, other, t.threads[other]) {
      OtherThread(s.shared, t.shared, scope, other, s.threads[other]);
    }
  }

  lemma StepKeepsThreads(s: State, a: Action)
    requires ThreadsOk(s)
    ensures ThreadsOk(Step(s, a))
  {
    if ScopeOf(a).Some? {
      var scope, t := ScopeOf(a).value, Step(s, a);
      StepFrame(s, a, scope);
      OwnStep(s, a, scope);
      AllThreads(s, t, scope);
    } else {
      RefreshKeepsThreads(s, a);
    }
  }

  lemma RefreshKeepsThreads(s: State, a: Action)
    requires ThreadsOk(s) && ScopeOf(a).None?
    ensures ThreadsOk(Step(s, a))
  {
    RefreshOwnsNothing(s, a);
  }

  /** A refresh click leaves everything alone that threads depend on. */
  lemma RefreshOwnsNothing(s: State, a: Action)
    requires ScopeOf(a).None?
    ensures var v, w := s.shared, Step(s, a).shared;
            && Step(s, a).threads == s.threads && w.runs == v.runs && w.objects == v.objects
            && |w.streams| == |v.streams|
            && forall k :: 0 <= k < |v.streams| ==>
                 w.streams[k].owner == v.streams[k].owner && w.streams[k].started == v.streams[k].started
  {
  }

  // ----- messages and routes --------------------------------------------------

  /** Only sending a card gives a stream its message. */
  ghost predicate SameMessages(v: Shared, w: Shared) {
    && |w.streams| == |v.streams| && |w.objects| == |v.objects|
    && (forall k :: 0 <= k < |v.streams| ==>
          w.streams[k].message == v.streams[k].message && w.streams[k].started == v.streams[k].started
          && w.streams[k].owner == v.streams[k].owner && w.streams[k].card == v.streams[k].card)
  }

  lemma SectionMessages(v: Shared, k: nat, r: Stream, w: Shared)
    requires k < |v.streams| && w.streams == v.streams[k := r] && |w.objects| == |v.objects|
    requires r.message == v.streams[k].message && r.started == v.streams[k].started
    requires r.owner == v.streams[k].owner && r.card == v.streams[k].card
    ensures SameMessages(v, w)
  {
  }

  lemma AdvanceMessages(s: State, scope: string)
    requires scope in s.threads && ThreadOk(s.shared, scope, s.threads[scope])
    ensures SameMessages(s.shared, Advanced(s, scope).shared)
  {
    var v, t, w := s.shared, s.threads[scope], Advanced(s, scope).shared;
    if t.phase in {MoveClosing, MoveFinishing} {
      SectionMessages(v, t.other, w.streams[t.other], w);
    } else if t.phase in {Ending, Finishing} {
      SectionMessages(v, t.stream, w.streams[t.stream], w);
    } else {
      assert w.streams == v.streams;
    }
  }

  lemma AdvanceStreams(s: State, scope: string)
    requires scope in s.threads && ThreadOk(s.shared, scope, s.threads[scope]) && StreamsOk(s.shared)
    ensures StreamsOk(Advanced(s, scope).shared)
  {
    AdvanceMessages(s, scope);
    var w := Advanced(s, scope).shared;
    assert forall o :: 0 <= o < |w.objects| ==>
        w.objects[o].stream == s.shared.objects[o].stream || w.objects[o].stream == s.threads[scope].other;
  }

  /** The three steps that bring in a stream or send a card. */
  lemma BeginKeepsStreams(v: Shared, scope: string)
    requires StreamsOk(v)
    ensures StreamsOk(AfterBegin(v, scope))
  {
  }

  lemma StartKeepsStreams(v: Shared, k: nat, message: string, card: string)
    requires StreamsOk(v) && k < |v.streams| && FreshMessage(v, message)
    ensures StreamsOk(AfterStart(v, k, message, card))
  {
  }

  lemma RotateKeepsStreams(v: Shared, r: Stream)
    requires StreamsOk(v) && FreshMessage(v, r.message) && r.started
    ensures StreamsOk(v.(streams := v.streams + [r]))
  {
  }

  lemma RestKeepsMessages(s: State, a: Action)
    requires !a.BeginRun? && !a.StartCard? && !a.Rotate? && !a.Advance?
    ensures SameMessages(s.shared, Step(s, a).shared)
    ensures Step(s, a).shared.objects == s.shared.objects
  {
  }

  lemma StepKeepsStreams(s: State, a: Action)
    requires ThreadsOk(s) && StreamsOk(s.shared)
    ensures StreamsOk(Step(s, a).shared)
  {
    if a.Advance? {
      if a.scope in s.threads {
        AdvanceStreams(s, a.scope);
      }
    } else if Step(s, a) == s {
    } else if a.BeginRun? {
      BeginKeepsStreams(s.shared, a.scope);
    } else if a.StartCard? {
      if a.ok {
        StartKeepsStreams(s.shared, s.threads[a.scope].stream, a.message, a.card);
      }
    } else if a.Rotate? {
      RotateKeepsStreams(s.shared, Stream(a.scope, a.message, a.card, true, None, None, None, 0, None));
    } else {
      RestKeepsMessages(s, a);
    }
  }

  /** The message routed to a scope, if its run has one. */
  ghost function RoutedMessage(s: State, scope: string): string {
    if scope in s.threads && Routes(s.threads[scope].phase) && s.threads[scope].stream < |s.shared.streams|
    then s.shared.streams[s.threads[scope].stream].message else ""
  }

  ghost predicate RouteOne(s: State, m: string, scope: string) {
    m != "" ==> (m in s.shared.routes && s.shared.routes[m] == scope <==> RoutedMessage(s, scope) == m)
  }

  /** Streams of different runs have different messages. */
  lemma MessagesApart(v: Shared, j: nat, k: nat)
    requires StreamsOk(v) && j < |v.streams| && k < |v.streams| && v.streams[j].owner != v.streams[k].owner
    ensures v.streams[j].message != "" ==> v.streams[j].message != v.streams[k].message
  {
    assert j < k || k < j;
  }

  lemma OwnRoute(s: State, scope: string, m: string)
    requires scope in s.threads && ThreadOk(s.shared, scope, s.threads[scope])
    requires StreamsOk(s.shared) && RouteOne(s, m, scope)
    ensures RouteOne(Advanced(s, scope), m, scope)
  {
    if s.threads[scope].phase in {Routing, MoveRouting, Unrouting} {
      OwnRouteChanges(s, scope, m);
    } else {
      OwnRouteStays(s, scope);
    }
  }

  lemma OwnRouteStays(s: State, scope: string)
    requires scope in s.threads && ThreadOk(s.shared, scope, s.threads[scope])
    requires s.threads[scope].phase !in {Routing, MoveRouting, Unrouting}
    ensures Advanced(s, scope).shared.routes == s.shared.routes
    ensures RoutedMessage(Advanced(s, scope), scope) == RoutedMessage(s, scope)
  {
    if s.threads[scope].phase in {Starting, Saving, Unregistering} {
      assert RoutedMessage(Advanced(s, scope), scope) == "";
    } else {
      StreamStays(s, scope);
      AdvanceMessages(s, scope);
    }
  }

  lemma StreamStays(s: State, scope: string)
    requires scope in s.threads && ThreadOk(s.shared, scope, s.threads[scope])
    requires s.threads[scope].phase !in {Starting, Saving, Unregistering, Routing, MoveRouting, Unrouting}
    ensures var t := Advanced(s, scope);
            scope in t.threads && Routes(t.threads[scope].phase) && t.threads[scope].stream == s.threads[scope].stream
  {
  }

  lemma OwnRouteChanges(s: State, scope: string, m: string)
    requires scope in s.threads && ThreadOk(s.shared, scope, s.threads[scope])
    requires s.threads[scope].phase in {Routing, MoveRouting, Unrouting}
    requires StreamsOk(s.shared) && RouteOne(s, m, scope)
    ensures RouteOne(Advanced(s, scope), m, scope)
  {
  }

  /** A section changes the routes of its own run's messages only. */
  lemma AdvanceRoutes(s: State, scope: string, m: string)
    requires scope in s.threads && ThreadOk(s.shared, scope, s.threads[scope])
    ensures var v, t, w := s.shared, s.threads[scope], Advanced(s, scope).shared;
            || ((m in w.routes <==> m in v.routes) && (m in v.routes ==> w.routes[m] == v.routes[m]))
            || ((m == v.streams[t.stream].message || m == v.streams[t.other].message)
                && (m in w.routes ==> w.routes[m] == scope))
  {
    if s.threads[scope].phase in {Routing, MoveRouting, Unrouting} {
      SectionRoutes(s, scope, m);
    } else {
      OwnRouteStays(s, scope);
    }
  }

  lemma SectionRoutes(s: State, scope: string, m: string)
    requires scope in s.threads && ThreadOk(s.shared, scope, s.threads[scope])
    requires s.threads[scope].phase in {Routing, MoveRouting, Unrouting}
    ensures var v, t, w := s.shared, s.threads[scope], Advanced(s, scope).shared;
            || ((m in w.routes <==> m in v.routes) && (m in v.routes ==> w.routes[m] == v.routes[m]))
            || ((m == v.streams[t.stream].message || m == v.streams[t.other].message)
                && (m in w.routes ==> w.routes[m] == scope))
  {
  }

  lemma OtherRoute(s: State, scope: string, other: string, m: string)
    requires scope in s.threads && ThreadOk(s.shared, scope, s.threads[scope])
    requires other != scope && (other in s.threads ==> ThreadOk(s.shared, other, s.threads[other]))
    requires StreamsOk(s.shared) && RouteOne(s, m, other)
    ensures RouteOne(Advanced(s, scope), m, other)
  {
    var v, t := s.shared, s.threads[scope];
    AdvanceRoutes(s, scope, m);
    AdvanceFrame(s, scope);
    SameRoutedMessage(s, Advanced(s, scope), scope, other);
    if m != "" && RoutedMessage(s, other) == m {
      MessagesApart(v, s.threads[other].stream, t.stream);
      MessagesApart(v, s.threads[other].stream, t.other);
    }
  }

  lemma StepKeepsRoute(s: State, a: Action, m: string, scope: string)
    requires ThreadsOk(s) && StreamsOk(s.shared) && RouteOne(s, m, scope)
    ensures RouteOne(Step(s, a), m, scope)
  {
    if a.Advance? {
      if a.scope in s.threads {
        if a.scope == scope {
          OwnRoute(s, scope, m);
        } else {
          OtherRoute(s, a.scope, scope, m);
        }
      }
    } else if ScopeOf(a) == Some(scope) {
      OwnChoiceRoutes(s, a, scope);
    } else if ScopeOf(a).Some? {
      StepFrame(s, a, ScopeOf(a).value);
      ChoicesKeepRoutes(s, a);
      SameRoutedMessage(s, Step(s, a), ScopeOf(a).value, scope);
    } else {
      RefreshRoutes(s, a, scope);
    }
  }

  lemma SameRoutedMessage(s: State, t: State, scope: string, other: string)
    requires Frame(s.shared, t.shared, scope) && SameThreads(s, t, scope) && other != scope
    requires other in s.threads ==> ThreadOk(s.shared, other, s.threads[other])
    ensures RoutedMessage(t, other) == RoutedMessage(s, other)
  {
  }

  lemma ChoicesKeepRoutes(s: State, a: Action)
    requires !a.Advance?
    ensures Step(s, a).shared.routes == s.shared.routes
  {
  }

  lemma OwnChoiceRoutes(s: State, a: Action, scope: string)
    requires !a.Advance? && ScopeOf(a) == Some(scope)
    requires scope in s.threads ==> ThreadOk(s.shared, scope, s.threads[scope])
    ensures RoutedMessage(Step(s, a), scope) == RoutedMessage(s, scope)
    ensures Step(s, a).shared.routes == s.shared.routes
  {
    ChoicesKeepRoutes(s, a);
  }

  lemma RefreshRoutes(s: State, a: Action, scope: string)
    requires ScopeOf(a).None?
    ensures RoutedMessage(Step(s, a), scope) == RoutedMessage(s, scope)
    ensures Step(s, a).shared.routes == s.shared.routes
  {
  }

  // ----- the file of active cards ---------------------------------------------

  lemma OwnActive(s: State, scope: string)
    requires scope in s.threads && ThreadOk(s.shared, scope, s.threads[scope]) && ActiveOne(s, scope)
    ensures ActiveOne(Advanced(s, scope), scope)
  {
    if s.threads[scope].phase in {Saving, MoveSaving, MoveRouting, Forgetting} {
      OwnActiveChanges(s, scope);
    } else {
      OwnActiveStays(s, scope);
    }
  }

  lemma OwnActiveChanges(s: State, scope: string)
    requires scope in s.threads && ThreadOk(s.shared, scope, s.threads[scope]) && ActiveOne(s, scope)
    requires s.threads[scope].phase in {Saving, MoveSaving, MoveRouting, Forgetting}
    ensures ActiveOne(Advanced(s, scope), scope)
  {
  }

  lemma OwnActiveStays(s: State, scope: string)
    requires scope in s.threads && ThreadOk(s.shared, scope, s.threads[scope]) && ActiveOne(s, scope)
    requires s.threads[scope].phase !in {Saving, MoveSaving, MoveRouting, Forgetting}
    ensures ActiveOne(Advanced(s, scope), scope)
  {
    AdvanceMessages(s, scope);
    SameActiveStream(s, scope);
  }

  lemma SameActiveStream(s: State, scope: string)
    requires scope in s.threads && ThreadOk(s.shared, scope, s.threads[scope])
    requires s.threads[scope].phase !in {Saving, MoveSaving, MoveRouting, Forgetting}
    ensures var t := Advanced(s, scope);
            && t.shared.active == s.shared.active
            && (if scope in t.threads then ActiveStream(t.threads[scope]) else None) == ActiveStream(s.threads[scope])
  {
    if !s.threads[scope].phase.Unregistering? {
      SameActiveThread(s, scope);
    }
  }

  lemma SameActiveThread(s: State, scope: string)
    requires scope in s.threads && ThreadOk(s.shared, scope, s.threads[scope])
    requires s.threads[scope].phase !in {Saving, MoveSaving, MoveRouting, Forgetting, Unregistering}
    ensures var t := Advanced(s, scope);
            && t.shared.active == s.shared.active && scope in t.threads
            && ActiveStream(t.threads[scope]) == ActiveStream(s.threads[scope])
  {
    if s.threads[scope].phase in {MoveClosing, MoveFinishing, Ending, Finishing, Unrouting} {
      SameActiveLate(s, scope);
    }
  }

  lemma SameActiveLate(s: State, scope: string)
    requires scope in s.threads && ThreadOk(s.shared, scope, s.threads[scope])
    requires s.threads[scope].phase in {MoveClosing, MoveFinishing, Ending, Finishing, Unrouting}
    ensures var t := Advanced(s, scope);
            && t.shared.active == s.shared.active && scope in t.threads
            && ActiveStream(t.threads[scope]) == ActiveStream(s.threads[scope])
  {
  }

  lemma OwnChoiceActive(s: State, a: Action, scope: string)
    requires !a.Advance? && ScopeOf(a) == Some(scope)
    requires scope in s.threads ==> ThreadOk(s.shared, scope, s.threads[scope])
    requires ActiveOne(s, scope)
    ensures ActiveOne(Step(s, a), scope)
  {
  }

  lemma OtherActive(s: State, t: State, scope: string, other: string)
    requires Frame(s.shared, t.shared, scope) && SameThreads(s, t, scope) && other != scope
    requires other in s.threads ==> ThreadOk(s.shared, other, s.threads[other])
    requires ActiveOne(s, other)
    ensures ActiveOne(t, other)
  {
  }

  lemma StepKeepsActive(s: State, a: Action, scope: string)
    requires ThreadsOk(s) && ActiveOne(s, scope)
    ensures ActiveOne(Step(s, a), scope)
  {
    if ScopeOf(a).None? {
    } else if ScopeOf(a).value != scope {
      StepFrame(s, a, ScopeOf(a).value);
      OtherActive(s, Step(s, a), ScopeOf(a).value, scope);
    } else if !a.Advance? {
      OwnChoiceActive(s, a, scope);
    } else if scope in s.threads {
      OwnActive(s, scope);
    }
  }

  // ----- finishing ------------------------------------------------------------

  /** What is claimed of one stream. */
  ghost predicate StreamOk(s: State, k: nat)
    requires k < |s.shared.streams|
  {
    FinishOne(s, k) && ShownOk(s, k)
  }

  lemma OtherStream(s: State, t: State, scope: string, k: nat)
    requires Frame(s.shared, t.shared, scope) && SameThreads(s, t, scope)
    requires k < |s.shared.streams| && s.shared.streams[k].owner != scope && StreamOk(s, k)
    ensures StreamOk(t, k)
  {
  }

  lemma OwnOpeningStream(s: State, scope: string, k: nat)
    requires scope in s.threads && ThreadOk(s.shared, scope, s.threads[scope])
    requires s.threads[scope].phase in {Saving, Routing, Publishing, Starting, Live, MoveSaving, MoveRouting}
    requires k < |s.shared.streams| && s.shared.streams[k].owner == scope && StreamOk(s, k)
    ensures k < |Advanced(s, scope).shared.streams| && StreamOk(Advanced(s, scope), k)
  {
  }

  lemma OwnMoveStream(s: State, scope: string, k: nat)
    requires scope in s.threads && ThreadOk(s.shared, scope, s.threads[scope])
    requires s.threads[scope].phase in {MoveClosing, MoveFinishing}
    requires k < |s.shared.streams| && s.shared.streams[k].owner == scope && StreamOk(s, k)
    ensures k < |Advanced(s, scope).shared.streams| && StreamOk(Advanced(s, scope), k)
  {
  }

  lemma OwnEndingStream(s: State, scope: string, k: nat)
    requires scope in s.threads && ThreadOk(s.shared, scope, s.threads[scope])
    requires s.threads[scope].phase in {Ending, Forgetting, Finishing, Unrouting, Unregistering}
    requires s.threads[scope].phase.Ending? ==> s.threads[scope].state.fields.terminal != Running
    requires k < |s.shared.streams| && s.shared.streams[k].owner == scope && StreamOk(s, k)
    ensures k < |Advanced(s, scope).shared.streams| && StreamOk(Advanced(s, scope), k)
  {
  }

  lemma OwnChoiceStream(s: State, a: Action, scope: string, k: nat)
    requires !a.Advance? && !a.StartCard? && ScopeOf(a) == Some(scope)
    requires scope in s.threads ==> ThreadOk(s.shared, scope, s.threads[scope])
    requires k < |s.shared.streams| && s.shared.streams[k].owner == scope && StreamOk(s, k)
    ensures k < |Step(s, a).shared.streams| && StreamOk(Step(s, a), k)
  {
    if a.AgentSays? || a.Heartbeat? {
      OwnUpdateStream(s, a, scope, k);
    }
  }

  lemma OwnUpdateStream(s: State, a: Action, scope: string, k: nat)
    requires (a.AgentSays? || a.Heartbeat?) && a.scope == scope
    requires scope in s.threads ==> ThreadOk(s.shared, scope, s.threads[scope])
    requires k < |s.shared.streams| && s.shared.streams[k].owner == scope && StreamOk(s, k)
    ensures k < |Step(s, a).shared.streams| && StreamOk(Step(s, a), k)
  {
  }

  lemma OwnStartStream(s: State, a: Action, k: nat)
    requires a.StartCard?
    requires a.scope in s.threads ==> ThreadOk(s.shared, a.scope, s.threads[a.scope])
    requires k < |s.shared.streams| && s.shared.streams[k].owner == a.scope && StreamOk(s, k)
    ensures k < |Step(s, a).shared.streams| && StreamOk(Step(s, a), k)
  {
    if a.ok && At(s, a.scope, Starting) {
      SentStream(s, a, k);
    }
  }

  lemma SentStream(s: State, a: Action, k: nat)
    requires a.StartCard? && a.ok && At(s, a.scope, Starting)
    requires ThreadOk(s.shared, a.scope, s.threads[a.scope])
    requires k < |s.shared.streams| && s.shared.streams[k].owner == a.scope && StreamOk(s, k)
    ensures k < |Step(s, a).shared.streams| && StreamOk(Step(s, a), k)
  {
  }

  lemma NewStream(s: State, a: Action, k: nat)
    requires |s.shared.streams| <= k < |Step(s, a).shared.streams|
    ensures StreamOk(Step(s, a), k)
  {
    if a.BeginRun? {
      assert Step(s, a).shared == AfterBegin(s.shared, a.scope);
    } else {
      OnlyRotationAdds(s, a);
    }
  }

  lemma OnlyRotationAdds(s: State, a: Action)
    requires !a.BeginRun? && |s.shared.streams| < |Step(s, a).shared.streams|
    ensures a.Rotate? && At(s, a.scope, Live)
  {
    if a.Advance? && Indexed(s, a.scope) {
      AdvanceAddsNothing(s, a.scope);
    }
  }

  lemma AdvanceAddsNothing(s: State, scope: string)
    requires Indexed(s, scope)
    ensures |Advanced(s, scope).shared.streams| == |s.shared.streams|
  {
  }

  lemma RefreshStream(s: State, a: Action, k: nat)
    requires ScopeOf(a).None? && PublishedOk(s) && k < |s.shared.streams| && StreamOk(s, k)
    ensures k < |Step(s, a).shared.streams| && StreamOk(Step(s, a), k)
  {
  }

  lemma StepKeepsStream(s: State, a: Action, k: nat)
    requires ThreadsOk(s) && EndingOk(s) && PublishedOk(s) && k < |Step(s, a).shared.streams|
    requires k < |s.shared.streams| ==> StreamOk(s, k)
    ensures StreamOk(Step(s, a), k)
  {
    if |s.shared.streams| <= k {
      NewStream(s, a, k);
    } else if ScopeOf(a).None? {
      RefreshStream(s, a, k);
    } else {
      var scope := ScopeOf(a).value;
      if s.shared.streams[k].owner != scope {
        StepFrame(s, a, scope);
        OtherStream(s, Step(s, a), scope, k);
      } else if a.StartCard? {
        OwnStartStream(s, a, k);
      } else if !a.Advance? {
        OwnChoiceStream(s, a, scope, k);
      } else if scope in s.threads {
        AdvanceKeepsStream(s, scope, k);
      }
    }
  }

  lemma AdvanceKeepsStream(s: State, scope: string, k: nat)
    requires scope in s.threads && ThreadOk(s.shared, scope, s.threads[scope]) && EndingOk(s)
    requires k < |s.shared.streams| && s.shared.streams[k].owner == scope && StreamOk(s, k)
    ensures k < |Advanced(s, scope).shared.streams| && StreamOk(Advanced(s, scope), k)
  {
    var phase := s.threads[scope].phase;
    if phase in {MoveClosing, MoveFinishing} {
      OwnMoveStream(s, scope, k);
    } else if phase in {Ending, Forgetting, Finishing, Unrouting, Unregistering} {
      OwnEndingStream(s, scope, k);
    } else {
      OwnOpeningStream(s, scope, k);
    }
  }

  lemma AdvanceKeepsEnding(s: State, scope: string)
    requires Indexed(s, scope) && EndingOk(s)
    ensures EndingOk(Advanced(s, scope))
  {
  }

  lemma StepKeepsEnding(s: State, a: Action)
    requires EndingOk(s)
    ensures EndingOk(Step(s, a))
  {
    if a.Advance? && Indexed(s, a.scope) {
      AdvanceKeepsEnding(s, a.scope);
    }
  }

  lemma AdvanceKeepsFolded(s: State, scope: string)
    requires Indexed(s, scope) && Folded(s, scope)
    ensures Folded(Advanced(s, scope), scope)
  {
    if s.threads[scope].phase in {Ending, Forgetting, Finishing, Unrouting, Unregistering} {
      EndingStaysEnding(s, scope);
    } else {
      KeepsState(s, scope);
    }
  }

  lemma EndingStaysEnding(s: State, scope: string)
    requires Indexed(s, scope) && s.threads[scope].phase in {Ending, Forgetting, Finishing, Unrouting, Unregistering}
    ensures var t := Advanced(s, scope);
            scope in t.threads ==> t.threads[scope].phase in {Ending, Forgetting, Finishing, Unrouting, Unregistering}
  {
  }

  lemma KeepsState(s: State, scope: string)
    requires Indexed(s, scope) && s.threads[scope].phase !in {Ending, Forgetting, Finishing, Unrouting, Unregistering}
    ensures var t := Advanced(s, scope);
            && scope in t.threads
            && t.threads[scope].state == s.threads[scope].state && t.threads[scope].events == s.threads[scope].events
  {
  }

  lemma StepKeepsFolded(s: State, a: Action, scope: string)
    requires Folded(s, scope)
    ensures Folded(Step(s, a), scope)
  {
    if a.AgentSays? && At(s, a.scope, Live) {
      FoldSnoc(s.threads[a.scope].events, a.event);
    } else if a == Advance(scope) && Indexed(s, scope) {
      AdvanceKeepsFolded(s, scope);
    }
  }

  lemma AdvanceKeepsPublished(s: State, scope: string)
    requires scope in s.threads && ThreadOk(s.shared, scope, s.threads[scope])
    requires PublishedOk(s) && Folded(s, scope)
    ensures PublishedOk(Advanced(s, scope))
  {
    if s.threads[scope].phase in {Publishing, MoveRouting} {
      PublishingKeepsPublished(s, scope);
    } else {
      OthersPublishNothing(s, scope);
    }
  }

  lemma PublishingKeepsPublished(s: State, scope: string)
    requires scope in s.threads && ThreadOk(s.shared, scope, s.threads[scope])
    requires s.threads[scope].phase in {Publishing, MoveRouting}
    requires PublishedOk(s) && Folded(s, scope)
    ensures PublishedOk(Advanced(s, scope))
  {
  }

  lemma OthersPublishNothing(s: State, scope: string)
    requires Indexed(s, scope) && s.threads[scope].phase !in {Publishing, MoveRouting}
    ensures Advanced(s, scope).shared.objects == s.shared.objects && Advanced(s, scope).refreshers == s.refreshers
  {
  }

  lemma StepKeepsPublished(s: State, a: Action)
    requires ThreadsOk(s) && PublishedOk(s)
    requires a.Advance? ==> Folded(s, a.scope)
    ensures PublishedOk(Step(s, a))
  {
    if a.Advance? {
      if a.scope in s.threads {
        AdvanceKeepsPublished(s, a.scope);
      }
    } else if ScopeOf(a).Some? {
      ChoiceKeepsPublished(s, a);
    } else {
      RefreshKeepsPublished(s, a);
    }
  }

  lemma ChoiceKeepsPublished(s: State, a: Action)
    requires PublishedOk(s) && !a.Advance? && ScopeOf(a).Some?
    ensures PublishedOk(Step(s, a))
  {
  }

  lemma RefreshKeepsPublished(s: State, a: Action)
    requires PublishedOk(s) && ScopeOf(a).None?
    ensures PublishedOk(Step(s, a))
  {
  }

  lemma AdvanceKeepsSaid(s: State, scope: string)
    requires scope in s.threads && ThreadOk(s.shared, scope, s.threads[scope]) && Said(s, scope)
    ensures Said(Advanced(s, scope), scope)
  {
    if s.threads[scope].phase in {Publishing, MoveRouting} {
      PublishingKeepsSaid(s, scope);
    } else {
      OthersPublishNothing(s, scope);
      SaysNothing(s, scope);
    }
  }

  lemma PublishingKeepsSaid(s: State, scope: string)
    requires scope in s.threads && ThreadOk(s.shared, scope, s.threads[scope]) && Said(s, scope)
    requires s.threads[scope].phase in {Publishing, MoveRouting}
    ensures Said(Advanced(s, scope), scope)
  {
  }

  lemma SaysNothing(s: State, scope: string)
    requires Indexed(s, scope) && s.threads[scope].phase !in {Publishing, MoveRouting}
    ensures var t := Advanced(s, scope);
            && (scope in t.threads ==>
                  && t.threads[scope].events == s.threads[scope].events
                  && t.threads[scope].object_ == s.threads[scope].object_ && !t.threads[scope].phase.Publishing?)
            && (scope in t.shared.runs ==> scope in s.shared.runs)
  {
    if s.threads[scope].phase in {Ending, Forgetting, Finishing, Unrouting, Unregistering} {
      EndingSaysNothing(s, scope);
    }
  }

  lemma EndingSaysNothing(s: State, scope: string)
    requires Indexed(s, scope) && s.threads[scope].phase in {Ending, Forgetting, Finishing, Unrouting, Unregistering}
    ensures var t := Advanced(s, scope);
            && (scope in t.threads ==>
                  && t.threads[scope].events == s.threads[scope].events
                  && t.threads[scope].object_ == s.threads[scope].object_ && !t.threads[scope].phase.Publishing?)
            && (scope in t.shared.runs ==> scope in s.shared.runs)
  {
  }

  lemma OwnChoiceSaid(s: State, a: Action, scope: string)
    requires !a.Advance? && ScopeOf(a) == Some(scope) && Said(s, scope)
    requires scope in s.threads ==> ThreadOk(s.shared, scope, s.threads[scope])
    ensures Said(Step(s, a), scope)
  {
    if a.BeginRun? || a.StartCard? || a.Rotate? {
      SendKeepsSaid(s, a, scope);
    } else if a.AgentSays? {
      AgentKeepsSaid(s, a, scope);
    }
  }

  lemma SendKeepsSaid(s: State, a: Action, scope: string)
    requires (a.BeginRun? || a.StartCard? || a.Rotate?) && a.scope == scope && Said(s, scope)
    requires scope in s.threads ==> ThreadOk(s.shared, scope, s.threads[scope])
    ensures Said(Step(s, a), scope)
  {
  }

  lemma AgentKeepsSaid(s: State, a: Action, scope: string)
    requires a.AgentSays? && a.scope == scope && Said(s, scope)
    requires scope in s.threads ==> ThreadOk(s.shared, scope, s.threads[scope])
    ensures Said(Step(s, a), scope)
  {
  }

  lemma OtherSaid(s: State, t: State, scope: string, other: string)
    requires Frame(s.shared, t.shared, scope) && SameThreads(s, t, scope) && other != scope
    requires other in s.threads ==> ThreadOk(s.shared, other, s.threads[other])
    requires Said(s, other)
    ensures Said(t, other)
  {
  }

  lemma StepKeepsSaid(s: State, a: Action, scope: string)
    requires ThreadsOk(s) && Said(s, scope)
    ensures Said(Step(s, a), scope)
  {
    if ScopeOf(a).None? {
    } else if ScopeOf(a).value != scope {
      StepFrame(s, a, ScopeOf(a).value);
      OtherSaid(s, Step(s, a), ScopeOf(a).value, scope);
    } else if !a.Advance? {
      OwnChoiceSaid(s, a, scope);
    } else if scope in s.threads {
      AdvanceKeepsSaid(s, scope);
    }
  }

  lemma AdvanceKeepsOutcome(s: State, scope: string)
    requires scope in s.threads && ThreadOk(s.shared, scope, s.threads[scope]) && OutcomeOk(s, scope)
    ensures OutcomeOk(Advanced(s, scope), scope)
  {
    if s.threads[scope].phase in {Ending, Forgetting, Finishing, Unrouting, Unregistering} {
      EndingKeepsOutcome(s, scope);
    } else {
      RunningHasNoOutcome(s, scope);
    }
  }

  lemma EndingKeepsOutcome(s: State, scope: string)
    requires scope in s.threads && ThreadOk(s.shared, scope, s.threads[scope]) && OutcomeOk(s, scope)
    requires s.threads[scope].phase in {Ending, Forgetting, Finishing, Unrouting, Unregistering}
    ensures OutcomeOk(Advanced(s, scope), scope)
  {
  }

  lemma RunningHasNoOutcome(s: State, scope: string)
    requires Indexed(s, scope)
    requires s.threads[scope].phase !in {Ending, Forgetting, Finishing, Unrouting, Unregistering}
    ensures var t := Advanced(s, scope);
            && scope in t.threads
            && t.threads[scope].phase !in {Ending, Forgetting, Finishing, Unrouting, Unregistering}
  {
  }

  lemma OwnChoiceOutcome(s: State, a: Action, scope: string)
    requires !a.Advance? && ScopeOf(a) == Some(scope) && Folded(s, scope) && OutcomeOk(s, scope)
    requires scope in s.threads ==> ThreadOk(s.shared, scope, s.threads[scope])
    ensures OutcomeOk(Step(s, a), scope)
  {
    if a.LoopEnds? {
      LoopEndsOutcome(s, scope);
    } else if !a.StartCard? {
      OwnClosingSame(s, a, scope);
    }
  }

  lemma LoopEndsOutcome(s: State, scope: string)
    requires Folded(s, scope) && OutcomeOk(s, scope)
    ensures OutcomeOk(Step(s, LoopEnds(scope)), scope)
  {
  }

  /** The other choices of a run keep its phase out of the ending, or change nothing there. */
  lemma OwnClosingSame(s: State, a: Action, scope: string)
    requires !a.Advance? && !a.StartCard? && !a.LoopEnds? && ScopeOf(a) == Some(scope) && OutcomeOk(s, scope)
    requires scope in s.threads ==> ThreadOk(s.shared, scope, s.threads[scope])
    ensures OutcomeOk(Step(s, a), scope)
  {
  }

  lemma OtherOutcome(s: State, t: State, scope: string, other: string)
    requires Frame(s.shared, t.shared, scope) && SameThreads(s, t, scope) && other != scope
    requires other in s.threads ==> ThreadOk(s.shared, other, s.threads[other])
    requires OutcomeOk(s, other)
    ensures OutcomeOk(t, other)
  {
  }

  lemma StepKeepsOutcome(s: State, a: Action, scope: string)
    requires ThreadsOk(s) && Folded(s, scope) && OutcomeOk(s, scope)
    ensures OutcomeOk(Step(s, a), scope)
  {
    if ScopeOf(a).None? {
    } else if ScopeOf(a).value != scope {
      StepFrame(s, a, ScopeOf(a).value);
      OtherOutcome(s, Step(s, a), ScopeOf(a).value, scope);
    } else if !a.Advance? {
      OwnChoiceOutcome(s, a, scope);
    } else if scope in s.threads {
      AdvanceKeepsOutcome(s, scope);
    }
  }

  lemma StepKeepsInv(s: State, a: Action)
    requires Inv(s)
    ensures Inv(Step(s, a))
  {
    StepKeepsThreads(s, a);
    StepKeepsStreams(s, a);
    StepKeepsEnding(s, a);
    StepKeepsPublished(s, a);
    forall scope ensures Folded(Step(s, a), scope) && OutcomeOk(Step(s, a), scope) && Said(Step(s, a), scope) {
      StepKeepsFolded(s, a, scope);
      StepKeepsSaid(s, a, scope);
      StepKeepsOutcome(s, a, scope);
    }
    forall m, scope ensures RouteOne(Step(s, a), m, scope) {
      StepKeepsRoute(s, a, m, scope);
    }
    forall scope ensures ActiveOne(Step(s, a), scope) {
      StepKeepsActive(s, a, scope);
    }
    forall k | 0 <= k < |Step(s, a).shared.streams| ensures StreamOk(Step(s, a), k) {
      StepKeepsStream(s, a, k);
    }
  }

  lemma {:induction false} RunKeepsInv(actions: seq<Action>)
    ensures Inv(Run(actions))
  {
    if actions != [] {
      RunKeepsInv(actions[..|actions| - 1]);
      StepKeepsInv(Run(actions[..|actions| - 1]), actions[|actions| - 1]);
    }
  }

  // ----- theorems -----------------------------------------------------------

  ghost predicate RoutesTo(s: State, m: string, scope: string) {
    m != "" && m in s.shared.routes && s.shared.routes[m] == scope
  }

  /** A card message routes to a scope exactly when it carries the live stream of the
      scope's run; so at most one does, and one does unless the live card came without
      a message id. A button on it reaches the run object that streams into that card. */
  lemma OneMessageRoutes(actions: seq<Action>, scope: string, m: string, other: string)
    ensures var s := Run(actions);
            && (RoutesTo(s, m, scope) <==> m != "" && RoutedMessage(s, scope) == m)
            && (RoutesTo(s, m, scope) && RoutesTo(s, other, scope) ==> m == other)
            && (RoutesTo(s, m, scope) && scope in s.shared.runs ==>
                  && s.shared.runs[scope] < |s.shared.objects|
                  && var k := s.shared.objects[s.shared.runs[scope]].stream;
                     k < |s.shared.streams| && s.shared.streams[k].message == m)
  {
    var s := Run(actions);
    RunKeepsInv(actions);
    assert RouteOne(s, m, scope) && RouteOne(s, other, scope);
    if scope in s.shared.runs {
      assert ThreadOk(s.shared, scope, s.threads[scope]);
    }
  }

  /** No stream is finished twice, and a stream that was sent is finished exactly when its
      run no longer streams into it: superseded streams and the last one, each once. */
  lemma FinishedExactlyOnce(actions: seq<Action>, k: nat)
    requires k < |Run(actions).shared.streams|
    ensures var s := Run(actions);
            && s.shared.streams[k].finishes <= 1
            && (s.shared.streams[k].finishes == 1 <==> s.shared.streams[k].started && !InUse(s, k))
  {
    RunKeepsInv(actions);
    assert StreamOk(Run(actions), k);
  }

  /** When no run of a scope is left, nothing of it is left: no message routes to it,
      it is neither registered nor listed as active, and every card sent for it was
      finished exactly once. */
  lemma RunEndsClean(actions: seq<Action>, scope: string, m: string, k: nat)
    requires scope !in Run(actions).threads
    ensures var s := Run(actions);
            && !RoutesTo(s, m, scope)
            && scope !in s.shared.active && scope !in s.shared.runs
            && (k < |s.shared.streams| && s.shared.streams[k].owner == scope && s.shared.streams[k].started ==>
                  s.shared.streams[k].finishes == 1 && s.shared.streams[k].shown.Some?)
  {
    var s := Run(actions);
    RunKeepsInv(actions);
    assert RouteOne(s, m, scope) && ActiveOne(s, scope);
    if k < |s.shared.streams| {
      assert StreamOk(s, k);
    }
  }

  /** No event has ended the card. */
  ghost predicate NoEnding(events: seq<Event>) {
    forall i :: 0 <= i < |events| ==> !events[i].Done? && !events[i].Error?
  }

  lemma NoEndingMeansRunning(events: seq<Event>)
    ensures StreamingMode(Fold(events)) <==> NoEnding(events)
  {
    TerminalClosedForm(events);
    LastEndingMeaning(events);
  }

  /** A finished card still streams on screen exactly when the last snapshot stored before
      the finishing was that of a refresh click, and no done or error event had been
      published when the click read the run. The click may lie wholly after the run's
      closing snapshot: the end the run itself chooses is never published. */
  lemma FinishedCardHasEnded(actions: seq<Action>, k: nat)
    ensures k < |Run(actions).shared.streams| && Run(actions).shared.streams[k].finishes > 0 ==>
              var r := Run(actions).shared.streams[k];
              && r.shown.Some?
              && (StreamingMode(r.shown.value) <==> r.slipped.Some? && NoEnding(r.slipped.value))
              && (r.slipped.None? ==> r.shown == r.closing)
              && (r.slipped.Some? ==> r.shown.value == Fold(r.slipped.value))
  {
    RunKeepsInv(actions);
    if k < |Run(actions).shared.streams| {
      assert StreamOk(Run(actions), k);
      var r := Run(actions).shared.streams[k];
      if r.slipped.Some? {
        NoEndingMeansRunning(r.slipped.value);
      }
    }
  }

  /** What a refresh click reads, and what the run object holds, is the fold of the events
      published so far; and these are what the run's agent said so far, but for events that
      came after a stop or whose publication is under way. */
  lemma RefreshShowsPublished(actions: seq<Action>, o: nat, n: nat, scope: string)
    ensures var s := Run(actions);
            && (o < |s.shared.objects| ==> s.shared.objects[o].state == Fold(s.shared.objects[o].published))
            && (n in s.refreshers && s.refreshers[n].Read? ==>
                  s.refreshers[n].state == Fold(s.refreshers[n].published))
            && (scope in s.threads ==>
                  var t := s.threads[scope];
                  && t.object_ < |s.shared.objects| && s.shared.objects[t.object_].published <= t.events
                  && (scope in s.shared.runs && !t.phase.Publishing? ==>
                        s.shared.objects[t.object_].published == t.events))
  {
    var s := Run(actions);
    RunKeepsInv(actions);
    assert Said(s, scope);
    if scope in s.threads {
      assert ThreadOk(s.shared, scope, s.threads[scope]);
    }
  }

  lemma AdvanceKeepsClosing(s: State, scope: string, k: nat)
    requires scope in s.threads && ThreadOk(s.shared, scope, s.threads[scope])
    requires k < |s.shared.streams| && StreamOk(s, k) && s.shared.streams[k].closing.Some?
    ensures k < |Advanced(s, scope).shared.streams|
    ensures Advanced(s, scope).shared.streams[k].closing == s.shared.streams[k].closing
  {
    if s.threads[scope].phase in {MoveClosing, Ending} {
      ClosingIsOther(s, scope, k);
    } else {
      OthersCloseNothing(s, scope, k);
    }
  }

  /** The stream about to get its closing snapshot has none. */
  lemma ClosingIsOther(s: State, scope: string, k: nat)
    requires scope in s.threads && ThreadOk(s.shared, scope, s.threads[scope])
    requires s.threads[scope].phase in {MoveClosing, Ending}
    requires k < |s.shared.streams| && StreamOk(s, k) && s.shared.streams[k].closing.Some?
    ensures k < |Advanced(s, scope).shared.streams|
    ensures Advanced(s, scope).shared.streams[k].closing == s.shared.streams[k].closing
  {
  }

  lemma OthersCloseNothing(s: State, scope: string, k: nat)
    requires Indexed(s, scope) && s.threads[scope].phase !in {MoveClosing, Ending} && k < |s.shared.streams|
    ensures k < |Advanced(s, scope).shared.streams|
    ensures Advanced(s, scope).shared.streams[k].closing == s.shared.streams[k].closing
  {
  }

  lemma StepKeepsClosing(s: State, a: Action, k: nat)
    requires ThreadsOk(s) && k < |s.shared.streams| && StreamOk(s, k) && s.shared.streams[k].closing.Some?
    ensures k < |Step(s, a).shared.streams| && Step(s, a).shared.streams[k].closing == s.shared.streams[k].closing
  {
    if a.Advance? {
      if a.scope in s.threads {
        AdvanceKeepsClosing(s, a.scope, k);
      }
    } else {
      ChoiceKeepsClosing(s, a, k);
    }
  }

  lemma ChoiceKeepsClosing(s: State, a: Action, k: nat)
    requires !a.Advance? && k < |s.shared.streams|
    ensures k < |Step(s, a).shared.streams| && Step(s, a).shared.streams[k].closing == s.shared.streams[k].closing
  {
  }

  /** A closing snapshot is stored once. */
  lemma {:induction false} ClosingStays(past: seq<Action>, future: seq<Action>, k: nat)
    requires k < |Run(past).shared.streams| && Run(past).shared.streams[k].closing.Some?
    ensures k < |Run(past + future).shared.streams|
    ensures Run(past + future).shared.streams[k].closing == Run(past).shared.streams[k].closing
  {
    if future == [] {
      assert past + future == past;
    } else {
      var front, a := future[..|future| - 1], future[|future| - 1];
      ClosingStays(past, front, k);
      RunLast(past, future);
      RunKeepsInv(past + front);
      StepKeepsClosing(Run(past + front), a, k);
    }
  }

  /** The whole run is shown, and how it ended: as the last done or error event said,
      or else by the watchdog, or else by a stop, or else complete. */
  ghost predicate ShowsOutcome(t: Thread, shot: RunState) {
    && ShowsRun(t.events, shot)
    && match LastEnding(t.events)
       case Some(i) =>
         && shot == Fold(t.events)
         && i < |t.events| && (t.events[i].Done? || t.events[i].Error?)
         && shot.fields.terminal == TerminalOf(t.events[i])
       case None =>
         && !Streaming(shot) && !shot.fields.reasoningActive && shot.fields.footer == FooterNone
         && (shot.fields.terminal == IdleTimeout <==> t.idleFired)
         && (shot.fields.terminal == Stopped <==> t.cutOff && !t.idleFired)
         && (shot.fields.terminal == Completed <==> !t.cutOff && !t.idleFired)
  }

  /** Whatever interleaves, the closing snapshot of a run shows everything its agent
      said, and how it ended; a stop counts that came before the loop ended. It stays
      so for good. */
  lemma OutcomeIsShown(past: seq<Action>, future: seq<Action>, scope: string)
    requires scope in Run(past).threads && Run(past).threads[scope].stream < |Run(past).shared.streams|
    requires Closed(Run(past).shared, Run(past).threads[scope])
    ensures var t := Run(past).threads[scope];
            && t.stream < |Run(past + future).shared.streams|
            && var shot := Run(past + future).shared.streams[t.stream].closing;
               shot.Some? && !StreamingMode(shot.value) && ShowsOutcome(t, shot.value)
  {
    RunKeepsInv(past);
    assert OutcomeOk(Run(past), scope);
    ClosingStays(past, future, Run(past).threads[scope].stream);
    OutcomeShows(Run(past).threads[scope]);
  }

  lemma OutcomeShows(t: Thread)
    ensures ShowsOutcome(t, Outcome(t)) && !StreamingMode(Outcome(t))
  {
    FinalizedShowsRun(t.events, t.idleFired, t.cutOff);
  }

  /** The step that stored the closing snapshot of stream `k`. */
  ghost predicate Stores(s: State, a: Action, k: nat) {
    && a.Advance? && a.scope in s.threads
    && var t := s.threads[a.scope];
       (t.phase.MoveClosing? && t.other == k) || (t.phase.Ending? && t.stream == k)
  }

  /** The card was superseded in a rotation: it shows the run so far, and that it goes on. */
  ghost predicate ShowsContinued(t: Thread, shot: RunState) {
    && ShowsRun(t.events, shot) && !Streaming(shot)
    && shot.fields.terminal == Continued && shot.fields.footer == FooterNone && !shot.fields.reasoningActive
  }

  /** What the closing snapshot must show when `t` stores it. */
  ghost predicate ShowsAtClosing(t: Thread, shot: RunState) {
    if t.phase.MoveClosing? then ShowsContinued(t, shot) else ShowsOutcome(t, shot)
  }

  /** A closing snapshot shows the whole run up to the moment it was stored: as
      continued exactly if a rotation stored it, or else with the run's outcome. */
  lemma {:induction false} ClosingOrigin(actions: seq<Action>, k: nat) returns (n: nat)
    requires k < |Run(actions).shared.streams| && Run(actions).shared.streams[k].closing.Some?
    ensures n < |actions| && Stores(Run(actions[..n]), actions[n], k)
    ensures var t := Run(actions[..n]).threads[actions[n].scope];
            var shot := Run(actions).shared.streams[k].closing.value;
            && ShowsAtClosing(t, shot)
            && (shot.fields.terminal == Continued <==> t.phase.MoveClosing?)
  {
    var past, a := actions[..|actions| - 1], actions[|actions| - 1];
    assert past + [a] == actions;
    RunSnoc(past, a);
    RunKeepsInv(past);
    if k < |Run(past).shared.streams| && Run(past).shared.streams[k].closing.Some? {
      ClosingCarried(Run(past), a, k);
      n := ClosingOrigin(past, k);
      assert actions[..n] == past[..n];
    } else {
      n := |past|;
      assert actions[..n] == past;
      ClosingStored(Run(past), a, k);
    }
  }

  lemma ClosingCarried(s: State, a: Action, k: nat)
    requires Inv(s) && k < |s.shared.streams| && s.shared.streams[k].closing.Some?
    ensures k < |Step(s, a).shared.streams| && Step(s, a).shared.streams[k].closing == s.shared.streams[k].closing
  {
    assert StreamOk(s, k);
    StepKeepsClosing(s, a, k);
  }

  lemma ClosingStored(s: State, a: Action, k: nat)
    requires Inv(s) && k < |Step(s, a).shared.streams| && Step(s, a).shared.streams[k].closing.Some?
    requires k < |s.shared.streams| ==> s.shared.streams[k].closing.None?
    ensures Stores(s, a, k)
    ensures var (t, shot) := (s.threads[a.scope], Step(s, a).shared.streams[k].closing.value);
            ShowsAtClosing(t, shot) && (shot.fields.terminal == Continued <==> t.phase.MoveClosing?)
  {
    if k < |s.shared.streams| {
      ClosingBySection(s, a, k);
      var t := s.threads[a.scope];
      assert Folded(s, a.scope) && OutcomeOk(s, a.scope) && ThreadOk(s.shared, a.scope, t);
      if t.phase.MoveClosing? {
        MarkedShowsRun(t.events, Continued);
      } else {
        OutcomeShows(t);
        OutcomeNotContinued(t);
      }
    } else {
      NewStreamIsOpen(s, a, k);
    }
  }

  lemma OutcomeNotContinued(t: Thread)
    ensures Outcome(t).fields.terminal != Continued
  {
    OutcomeShows(t);
  }

  lemma ClosingBySection(s: State, a: Action, k: nat)
    requires ThreadsOk(s) && k < |s.shared.streams| && k < |Step(s, a).shared.streams|
    requires s.shared.streams[k].closing.None? && Step(s, a).shared.streams[k].closing.Some?
    ensures Stores(s, a, k)
    ensures var t := s.threads[a.scope];
            Step(s, a).shared.streams[k].closing
            == Some(if t.phase.MoveClosing? then Marked(t.state, Continued) else t.state)
  {
    if !a.Advance? {
      ChoiceKeepsClosing(s, a, k);
    } else {
      assert ThreadOk(s.shared, a.scope, s.threads[a.scope]);
      if s.threads[a.scope].phase !in {MoveClosing, Ending} {
        OthersCloseNothing(s, a.scope, k);
      }
    }
  }

  lemma NewStreamIsOpen(s: State, a: Action, k: nat)
    requires |s.shared.streams| <= k < |Step(s, a).shared.streams|
    ensures Step(s, a).shared.streams[k].closing.None?
  {
    if a.BeginRun? {
      assert Step(s, a).shared == AfterBegin(s.shared, a.scope);
    } else {
      OnlyRotationAdds(s, a);
    }
  }

  /** While the run is in its loop, its card is given the fold of all events, the newest
      included, and a refresh click gives the card the fold of what was published. */
  lemma CardFollowsAgent(actions: seq<Action>, scope: string, e: Event)
    requires At(Run(actions), scope, Live)
    ensures var (s, t) := (Run(actions), Run(actions + [AgentSays(scope, e)]));
            && scope in t.threads && t.threads[scope].events == s.threads[scope].events + [e]
            && t.threads[scope].stream == s.threads[scope].stream < |t.shared.streams|
            && t.shared.streams[t.threads[scope].stream].latest == Some(Fold(s.threads[scope].events + [e]))
  {
    RunKeepsInv(actions);
    RunSnoc(actions, AgentSays(scope, e));
    var s := Run(actions);
    assert Folded(s, scope) && ThreadOk(s.shared, scope, s.threads[scope]);
    AgentStep(s, scope, e);
  }

  lemma AgentStep(s: State, scope: string, e: Event)
    requires At(s, scope, Live) && Folded(s, scope) && ThreadOk(s.shared, scope, s.threads[scope])
    ensures var t := Step(s, AgentSays(scope, e));
            && scope in t.threads && t.threads[scope].events == s.threads[scope].events + [e]
            && t.threads[scope].stream == s.threads[scope].stream < |t.shared.streams|
            && t.shared.streams[t.threads[scope].stream].latest == Some(Fold(s.threads[scope].events + [e]))
  {
    FoldSnoc(s.threads[scope].events, e);
  }

  lemma RefreshStoresWhatItRead(actions: seq<Action>, n: nat)
    requires n in Run(actions).refreshers && Run(actions).refreshers[n].Read?
    requires Run(actions).refreshers[n].stream < |Run(actions).shared.streams|
    ensures var (s, t) := (Run(actions), Run(actions + [RefreshUpdate(n)]));
            var r := s.refreshers[n];
            && r.stream < |t.shared.streams|
            && t.shared.streams[r.stream].latest == Some(Fold(r.published))
  {
    RunKeepsInv(actions);
    RunSnoc(actions, RefreshUpdate(n));
    RefreshStep(Run(actions), n);
  }

  lemma RefreshStep(s: State, n: nat)
    requires PublishedOk(s) && n in s.refreshers && s.refreshers[n].Read?
    requires s.refreshers[n].stream < |s.shared.streams|
    ensures var r := s.refreshers[n];
            var t := Step(s, RefreshUpdate(n));
            r.stream < |t.shared.streams| && t.shared.streams[r.stream].latest == Some(Fold(r.published))
  {
  }

  /** What counts is whether a stop or the watchdog came before the loop ended. */
  lemma LoopEndSeesStops(actions: seq<Action>, scope: string)
    requires At(Run(actions), scope, Live)
    ensures var t := Run(actions).threads[scope];
            Step(Run(actions), LoopEnds(scope)).threads[scope].cutOff <==> t.stopHit || t.idleFired
  {
    RunKeepsInv(actions);
    CutOffMeans(Run(actions), scope);
  }

  lemma CutOffMeans(s: State, scope: string)
    requires At(s, scope, Live) && ThreadOk(s.shared, scope, s.threads[scope])
    ensures Step(s, LoopEnds(scope)).threads[scope].cutOff <==> s.threads[scope].stopHit || s.threads[scope].idleFired
  {
  }

  /** A whole rotation, as one change of the shared state. */
  ghost function Rotated(v: Shared, scope: string, current: nat, state: RunState, events: seq<Event>,
                         message: string, card: string): Shared
    requires current < |v.streams|
    requires scope in v.runs ==> v.runs[scope] < |v.objects|
  {
    var next := |v.streams|;
    var sent := v.(streams := v.streams + [Stream(scope, message, card, true, None, None, None, 0, None)]);
    var moved := AfterMove(AfterSave(sent, scope, next), scope, current, next, state, events);
    AfterFinish(AfterClosing(moved, current, Marked(state, Continued)), current)
  }

  /** Undisturbed, the steps of a rotation amount to that change, and the run goes on
      in the new stream. */
  lemma RotationIsItsSteps(s: State, scope: string, message: string, card: string)
    requires At(s, scope, Live) && ThreadOk(s.shared, scope, s.threads[scope]) && FreshMessage(s.shared, message)
    ensures var t := s.threads[scope];
            var s1 := Step(s, Rotate(scope, true, message, card));
            var s5 := Step(Step(Step(Step(s1, Advance(scope)), Advance(scope)), Advance(scope)), Advance(scope));
            && s5.shared == Rotated(s.shared, scope, t.stream, t.state, t.events, message, card)
            && At(s5, scope, Live) && s5.threads[scope].stream == |s.shared.streams|
  {
    var t := s.threads[scope];
    var s1 := Step(s, Rotate(scope, true, message, card));
    RotationMoves(s1, scope);
    var s3 := Step(Step(s1, Advance(scope)), Advance(scope));
    RotationCloses(s3, scope);
  }

  /** The first half of a rotation: the new card is saved and routed. */
  lemma RotationMoves(s: State, scope: string)
    requires At(s, scope, MoveSaving) && Indexed(s, scope)
    ensures var t := s.threads[scope];
            var u := Step(Step(s, Advance(scope)), Advance(scope));
            && u.shared == AfterMove(AfterSave(s.shared, scope, t.other), scope, t.stream, t.other, t.state, t.events)
            && Indexed(u, scope)
            && u.threads[scope] == t.(phase := MoveClosing, stream := t.other, other := t.stream)
  {
    var saved := Step(s, Advance(scope));
    assert At(saved, scope, MoveRouting) && Indexed(saved, scope);
  }

  /** The second half: the old card is closed and finished. */
  lemma RotationCloses(s: State, scope: string)
    requires At(s, scope, MoveClosing) && Indexed(s, scope)
    ensures var t := s.threads[scope];
            var u := Step(Step(s, Advance(scope)), Advance(scope));
            && u.shared == AfterFinish(AfterClosing(s.shared, t.other, Marked(t.state, Continued)), t.other)
            && At(u, scope, Live) && u.threads[scope].stream == t.stream
  {
    var closed := Step(s, Advance(scope));
    assert At(closed, scope, MoveFinishing) && Indexed(closed, scope);
  }

  ghost function Advances(scope: string, n: nat): seq<Action> {
    seq(n, _ => Advance(scope))
  }

  ghost function Sections(s: State, scope: string, n: nat): State {
    if n == 0 then s else Step(Sections(s, scope, n - 1), Advance(scope))
  }

  lemma {:induction false} RunSections(actions: seq<Action>, scope: string, n: nat)
    ensures Run(actions + Advances(scope, n)) == Sections(Run(actions), scope, n)
  {
    if n == 0 {
      assert actions + Advances(scope, 0) == actions;
    } else {
      RunSections(actions, scope, n - 1);
      RunSnoc(actions + Advances(scope, n - 1), Advance(scope));
      assert actions + Advances(scope, n) == (actions + Advances(scope, n - 1)) + [Advance(scope)];
    }
  }

  /** The run is in its loop, registered, and no event has ended its card. */
  ghost predicate InLoop(s: State, scope: string) {
    At(s, scope, Live) && scope in s.shared.runs && NoEnding(s.threads[scope].events)
  }

  /** A stop during the loop unregisters the run, and the closing snapshot says stopped. */
  lemma StopIsShown(actions: seq<Action>, scope: string)
    requires InLoop(Run(actions), scope)
    ensures var t := Run(actions + [Stop(scope), LoopEnds(scope), Advance(scope)]);
            ClosesAs(t, scope, Stopped) && scope !in t.shared.runs
  {
    RunKeepsInv(actions);
    RunThree(actions, Stop(scope), LoopEnds(scope), Advance(scope));
    LoopReady(Run(actions), scope);
    StopUnregisters(Run(actions), scope);
    EndsAs(Step(Run(actions), Stop(scope)), scope);
  }

  /** So does the watchdog, and the closing snapshot says that the run timed out. */
  lemma WatchdogIsShown(actions: seq<Action>, scope: string)
    requires InLoop(Run(actions), scope)
    ensures var t := Run(actions + [IdleFires(scope), LoopEnds(scope), Advance(scope)]);
            ClosesAs(t, scope, IdleTimeout) && scope !in t.shared.runs
  {
    RunKeepsInv(actions);
    RunThree(actions, IdleFires(scope), LoopEnds(scope), Advance(scope));
    LoopReady(Run(actions), scope);
    WatchdogUnregisters(Run(actions), scope);
    EndsAs(Step(Run(actions), IdleFires(scope)), scope);
  }

  /** Without either it says complete. */
  lemma CompleteIsShown(actions: seq<Action>, scope: string)
    requires InLoop(Run(actions), scope)
    ensures ClosesAs(Run(actions + [LoopEnds(scope)] + [Advance(scope)]), scope, Completed)
  {
    RunKeepsInv(actions);
    RunSnoc(actions, LoopEnds(scope));
    RunSnoc(actions + [LoopEnds(scope)], Advance(scope));
    LoopReady(Run(actions), scope);
    EndsAs(Run(actions), scope);
  }

  ghost predicate ClosesAs(s: State, scope: string, terminal: Terminal) {
    && scope in s.threads && s.threads[scope].stream < |s.shared.streams|
    && var shot := s.shared.streams[s.threads[scope].stream].closing;
       shot.Some? && shot.value.fields.terminal == terminal
  }

  lemma LoopReady(s: State, scope: string)
    requires Inv(s) && At(s, scope, Live) && scope in s.shared.runs
    ensures !s.threads[scope].idleFired && CanEnd(s, scope)
  {
    assert Folded(s, scope) && ThreadOk(s.shared, scope, s.threads[scope]);
  }

  lemma StopUnregisters(s: State, scope: string)
    requires CanEnd(s, scope) && scope in s.shared.runs
    ensures var t := Step(s, Stop(scope));
            CanEnd(t, scope) && scope !in t.shared.runs && t.threads[scope] == s.threads[scope].(stopHit := true)
  {
  }

  lemma WatchdogUnregisters(s: State, scope: string)
    requires CanEnd(s, scope)
    ensures var t := Step(s, IdleFires(scope));
            CanEnd(t, scope) && scope !in t.shared.runs && t.threads[scope] == s.threads[scope].(idleFired := true)
  {
  }

  ghost predicate CanEnd(s: State, scope: string) {
    At(s, scope, Live) && Indexed(s, scope) && s.threads[scope].state == Fold(s.threads[scope].events)
  }

  lemma EndsAs(s: State, scope: string)
    requires CanEnd(s, scope) && NoEnding(s.threads[scope].events)
    ensures var t := Step(Step(s, LoopEnds(scope)), Advance(scope));
            && t.shared.runs == s.shared.runs
            && ClosesAs(t, scope, if s.threads[scope].idleFired then IdleTimeout
                                  else if scope !in s.shared.runs then Stopped else Completed)
  {
    var ended := Step(s, LoopEnds(scope));
    NoEndingMeansRunning(s.threads[scope].events);
    assert At(ended, scope, Ending) && Indexed(ended, scope);
    EndingStores(ended, scope);
  }

  lemma EndingStores(s: State, scope: string)
    requires At(s, scope, Ending) && Indexed(s, scope)
    ensures var t := Step(s, Advance(scope));
            && t.shared.runs == s.shared.runs
            && ClosesAs(t, scope, s.threads[scope].state.fields.terminal)
  {
  }

  lemma RunThree(actions: seq<Action>, a: Action, b: Action, c: Action)
    ensures Run(actions + [a, b, c]) == Step(Step(Step(Run(actions), a), b), c)
  {
    assert actions + [a, b, c] == ((actions + [a]) + [b]) + [c];
    RunSnoc(actions, a);
    RunSnoc(actions + [a], b);
    RunSnoc((actions + [a]) + [b], c);
  }

  /** A heartbeat shows the run as it stands, as long as it has not ended. */
  lemma HeartbeatShowsRun(actions: seq<Action>, scope: string)
    requires At(Run(actions), scope, Live) && NoEnding(Run(actions).threads[scope].events)
    ensures var (s, t) := (Run(actions), Run(actions + [Heartbeat(scope)]));
            && At(t, scope, Publishing) && t.threads[scope].stream < |t.shared.streams|
            && t.shared.streams[t.threads[scope].stream].latest == Some(Fold(s.threads[scope].events))
  {
    RunKeepsInv(actions);
    RunSnoc(actions, Heartbeat(scope));
    HeartbeatStep(Run(actions), scope);
  }

  lemma HeartbeatStep(s: State, scope: string)
    requires At(s, scope, Live) && Folded(s, scope) && ThreadOk(s.shared, scope, s.threads[scope])
    requires NoEnding(s.threads[scope].events)
    ensures var t := Step(s, Heartbeat(scope));
            && At(t, scope, Publishing) && t.threads[scope].stream < |t.shared.streams|
            && t.shared.streams[t.threads[scope].stream].latest == Some(Fold(s.threads[scope].events))
  {
    NoEndingMeansRunning(s.threads[scope].events);
  }

  const LAST_PHASES := [Ending, Forgetting, Finishing, Unrouting, Unregistering]

  lemma EndingSection(s: State, scope: string, n: nat)
    requires n < 4 && At(s, scope, LAST_PHASES[n]) && Indexed(s, scope)
    ensures var t := Step(s, Advance(scope)); At(t, scope, LAST_PHASES[n + 1]) && Indexed(t, scope)
  {
  }

  lemma {:induction false} EndingSections(s: State, scope: string, n: nat)
    requires n <= 4 && At(s, scope, Ending) && Indexed(s, scope)
    ensures At(Sections(s, scope, n), scope, LAST_PHASES[n]) && Indexed(Sections(s, scope, n), scope)
  {
    if n > 0 {
      EndingSections(s, scope, n - 1);
      EndingSection(Sections(s, scope, n - 1), scope, n - 1);
    }
  }

  /** From its loop a run can always come to its end: five sections after the loop it is
      gone. */
  lemma RunCanEnd(actions: seq<Action>, scope: string)
    requires At(Run(actions), scope, Live)
    ensures scope !in Run(actions + [LoopEnds(scope)] + Advances(scope, 5)).threads
  {
    RunKeepsInv(actions);
    RunSnoc(actions, LoopEnds(scope));
    RunSections(actions + [LoopEnds(scope)], scope, 5);
    LoopCanEnd(Run(actions), scope);
  }

  lemma LoopCanEnd(s: State, scope: string)
    requires At(s, scope, Live) && ThreadsOk(s)
    ensures scope !in Sections(Step(s, LoopEnds(scope)), scope, 5).threads
  {
    assert ThreadOk(s.shared, scope, s.threads[scope]);
    LoopEndsThere(s, scope);
    EndingSections(Step(s, LoopEnds(scope)), scope, 4);
    LastSection(Sections(Step(s, LoopEnds(scope)), scope, 4), scope);
  }

  lemma LastSection(s: State, scope: string)
    requires At(s, scope, Unregistering) && Indexed(s, scope)
    ensures scope !in Step(s, Advance(scope)).threads
  {
  }

  lemma LoopEndsThere(s: State, scope: string)
    requires At(s, scope, Live) && ThreadOk(s.shared, scope, s.threads[scope])
    ensures At(Step(s, LoopEnds(scope)), scope, Ending) && Indexed(Step(s, LoopEnds(scope)), scope)
  {
  }

  /** A run whose card could be sent comes into its loop, and the card's message routes
      to it. */
  lemma RunCanStart(actions: seq<Action>, scope: string, message: string, card: string)
    requires scope !in Run(actions).threads && message != "" && FreshMessage(Run(actions).shared, message)
    ensures var t := Run(actions + [BeginRun(scope)] + [StartCard(scope, true, message, card)] + Advances(scope, 2));
            && At(t, scope, Live) && RoutesTo(t, message, scope)
            && scope in t.shared.runs && scope in t.shared.active && t.shared.active[scope] == card
  {
    var begun := actions + [BeginRun(scope)];
    var sent := begun + [StartCard(scope, true, message, card)];
    RunKeepsInv(actions);
    RunSnoc(actions, BeginRun(scope));
    RunSnoc(begun, StartCard(scope, true, message, card));
    RunTwo(sent, scope);
    StartsSaving(Run(actions), scope, message, card);
    StartsRouting(Run(sent), scope, |Run(actions).shared.streams|);
  }

  lemma RunTwo(actions: seq<Action>, scope: string)
    ensures Run(actions + Advances(scope, 2)) == Step(Step(Run(actions), Advance(scope)), Advance(scope))
  {
    assert actions + Advances(scope, 2) == (actions + [Advance(scope)]) + [Advance(scope)];
    RunSnoc(actions, Advance(scope));
    RunSnoc(actions + [Advance(scope)], Advance(scope));
  }

  lemma StartsSaving(s: State, scope: string, message: string, card: string)
    requires Inv(s) && scope !in s.threads && FreshMessage(s.shared, message) && message != ""
    ensures var t := Step(Step(s, BeginRun(scope)), StartCard(scope, true, message, card));
            && At(t, scope, Saving) && Indexed(t, scope) && scope in t.shared.runs
            && t.threads[scope].stream == |s.shared.streams| < |t.shared.streams|
            && t.shared.streams[|s.shared.streams|].message == message
            && t.shared.streams[|s.shared.streams|].card == card
  {
    var begun := Step(s, BeginRun(scope));
    assert At(begun, scope, Starting) && Indexed(begun, scope);
  }

  lemma StartsRouting(s: State, scope: string, k: nat)
    requires At(s, scope, Saving) && Indexed(s, scope) && scope in s.shared.runs
    requires s.threads[scope].stream == k < |s.shared.streams| && s.shared.streams[k].message != ""
    ensures var t := Step(Step(s, Advance(scope)), Advance(scope));
            && At(t, scope, Live) && RoutesTo(t, s.shared.streams[k].message, scope)
            && scope in t.shared.runs && scope in t.shared.active && t.shared.active[scope] == s.shared.streams[k].card
  {
    var saved := Step(s, Advance(scope));
    assert At(saved, scope, Routing) && Indexed(saved, scope);
  }

  const SENT_CARD := Stream("s", "m", "c", true, None, None, None, 0, None)

  const COMPLETE := Finalized(INITIAL, false, false)

  /** One run streams into its first card. */
  ghost function LiveState(): State {
    State(Shared(map["s" := 0], [RunObject("s", 0, INITIAL, [])], map["m" := "s"], map["s" := "c"], [SENT_CARD]),
          map["s" := Thread(Live, 0, 0, 0, INITIAL, false, [], false, false)], map[])
  }

  lemma ReachLive() returns (actions: seq<Action>)
    ensures Run(actions) == LiveState()
  {
    RunSnoc([], BeginRun("s"));
    var begun := Step(QUIET, BeginRun("s"));
    assert begun.threads["s"] == Thread(Starting, 0, 0, 0, INITIAL, false, [], false, false);
    RunSnoc([BeginRun("s")], StartCard("s", true, "m", "c"));
    var sent := Step(begun, StartCard("s", true, "m", "c"));
    assert sent.threads["s"] == Thread(Saving, 0, 0, 0, INITIAL, false, [], false, false);
    assert sent.shared.streams == [SENT_CARD];
    actions := [BeginRun("s")] + [StartCard("s", true, "m", "c")];
    RunSnoc(actions, Advance("s"));
    RunSnoc(actions + [Advance("s")], Advance("s"));
    actions := actions + [Advance("s")] + [Advance("s")];
    assert Run(actions).threads["s"] == LiveState().threads["s"];
    assert Run(actions).shared.routes == map["m" := "s"];
    assert Run(actions).shared.active == map["s" := "c"];
  }

  /** The run has stored its closing snapshot. */
  ghost function ClosingState(): State {
    LiveState()
      .(shared := LiveState().shared.(streams := [SENT_CARD.(latest := Some(COMPLETE), closing := Some(COMPLETE))]),
        threads := map["s" := Thread(Forgetting, 0, 0, 0, COMPLETE, false, [], false, false)])
  }

  lemma ReachClosing() returns (actions: seq<Action>)
    ensures Run(actions) == ClosingState()
  {
    actions := ReachLive();
    RunSnoc(actions, LoopEnds("s"));
    RunSnoc(actions + [LoopEnds("s")], Advance("s"));
    actions := actions + [LoopEnds("s")] + [Advance("s")];
  }

  /** A refresh click looks and reads after the closing snapshot was stored. */
  lemma ReachLateRead() returns (actions: seq<Action>)
    ensures Run(actions) == ClosingState().(refreshers := map[0 := Read(0, INITIAL, [])])
  {
    actions := ReachClosing();
    RunSnoc(actions, RefreshLook(0, "m"));
    actions := actions + [RefreshLook(0, "m")];
    assert Run(actions) == ClosingState().(refreshers := map[0 := Found(0)]);
    RunSnoc(actions, RefreshRead(0));
    actions := actions + [RefreshRead(0)];
  }

  /** A card that streams again: the click looks, reads and stores after the run's closing
      snapshot, and finds the run still going. */
  lemma RefreshCanReviveCard() returns (actions: seq<Action>)
    ensures var v := Run(actions).shared;
            |v.streams| == 1 && v.streams[0].finishes == 1
            && v.streams[0].shown.Some? && StreamingMode(v.streams[0].shown.value)
  {
    actions := ReachLateRead();
    RunSnoc(actions, RefreshUpdate(0));
    actions := actions + [RefreshUpdate(0)];
    var revived := SENT_CARD.(latest := Some(INITIAL), closing := Some(COMPLETE), slipped := Some([]));
    assert Run(actions).shared == ClosingState().shared.(streams := [revived]);
    assert Run(actions).threads == ClosingState().threads;
    FinishingSteps(Run(actions), "s");
    RunSnoc(actions, Advance("s"));
    RunSnoc(actions + [Advance("s")], Advance("s"));
    actions := actions + [Advance("s")] + [Advance("s")];
  }

  /** A stop that is answered as done after the loop has ended leaves a card that says
      complete. */
  lemma LateStopShowsComplete() returns (actions: seq<Action>)
    ensures var s := Run(actions);
            && At(s, "s", Forgetting) && s.threads["s"].stopHit
            && |s.shared.streams| == 1 && s.shared.streams[0].closing == Some(COMPLETE)
            && COMPLETE.fields.terminal == Completed
  {
    actions := ReachLive();
    RunSnoc(actions, LoopEnds("s"));
    actions := actions + [LoopEnds("s")];
    assert Run(actions) ==
           LiveState().(threads := map["s" := Thread(Ending, 0, 0, 0, COMPLETE, false, [], false, false)]);
    RunSnoc(actions, Stop("s"));
    actions := actions + [Stop("s")];
    assert At(Run(actions), "s", Ending) && Run(actions).threads["s"].stopHit;
    RunSnoc(actions, Advance("s"));
    actions := actions + [Advance("s")];
  }

  /** Why one run of a scope at a time is assumed: two runs of one scope both get a
      message routed, and the end of the first unregisters the second, whose card
      then routes to nothing. */
  lemma SecondRunBreaksRouting(v: Shared, scope: string, message: string, other: string, card: string)
    requires message != "" && other != "" && message != other
    ensures var first := AfterBegin(v, scope);
            var k := |v.streams|;
            var one := AfterRoute(AfterStart(first, k, message, card), scope, k);
            var two := AfterRoute(AfterStart(AfterBegin(one, scope), k + 1, other, card), scope, k + 1);
            var ended := AfterStop(AfterUnroute(two, k), scope);
            && message in two.routes && two.routes[message] == scope
            && other in two.routes && two.routes[other] == scope
            && scope in two.runs && two.objects[two.runs[scope]].stream == k + 1
            && scope !in ended.runs && other in ended.routes && ended.routes[other] == scope
  {
  }

  lemma FinishingSteps(s: State, scope: string)
    requires At(s, scope, Forgetting) && Indexed(s, scope)
    ensures Step(Step(s, Advance(scope)), Advance(scope)).shared.streams
            == AfterFinish(s.shared, s.threads[scope].stream).streams
  {
    var forgotten := Step(s, Advance(scope));
    assert At(forgotten, scope, Finishing) && Indexed(forgotten, scope);
  }

  lemma RunLast(past: seq<Action>, future: seq<Action>)
    requires future != []
    ensures Run(past + future) == Step(Run(past + future[..|future| - 1]), future[|future| - 1])
  {
    assert (past + future)[..|past + future| - 1] == past + future[..|future| - 1];
  }

  lemma RunSnoc(actions: seq<Action>, a: Action)
    ensures Run(actions + [a]) == Step(Run(actions), a)
  {
    assert (actions + [a])[..|actions|] == actions;
  }

  // ----- the bridge -----------------------------------------------------------

  /** The part of the bridge object that runs and cards live in. */
  class Bridge {
    var runs: map<string, nat>
    var objects: seq<RunObject>
    var cardScopes: map<string, string>
    var activeCards: map<string, string>
    var streams: seq<Stream>

    ghost function View(): Shared
      reads this
    {
      Shared(runs, objects, cardScopes, activeCards, streams)
    }

    constructor ()
      ensures View() == NOTHING
    {
      runs, objects, cardScopes, activeCards, streams := map[], [], map[], map[], [];
    }

    method UpdateStream(k: nat, state: RunState, closing: bool)
      requires k < |streams|
      modifies this`streams
      ensures View() == if closing then AfterClosing(old(View()), k, state) else AfterUpdate(old(View()), k, state)
    {
      streams := streams[k := streams[k].(latest := Some(state))];
      if closing {
        streams := streams[k := streams[k].(closing := Some(state))];
      }
    }

    method FinishStream(k: nat)
      requires k < |streams|
      modifies this`streams
      ensures View() == AfterFinish(old(View()), k)
    {
      streams := streams[k := streams[k].(shown := streams[k].latest, finishes := streams[k].finishes + 1)];
    }

    /** `rotateRunCard` with the state that `events` (history) folded to; `ok` tells whether
        the new card could be sent. A failed rotation
        changes nothing and the run stays in its stream. */
    method RotateRunCard(scope: string, current: nat, state: RunState, events: seq<Event>, ok: bool,
                         message: string, card: string)
      returns (next: nat)
      requires current < |streams| && (scope in runs ==> runs[scope] < |objects|)
      modifies this
      ensures !ok ==> next == current && View() == old(View())
      ensures ok ==>
                next == old(|streams|) && View() == Rotated(old(View()), scope, current, state, events, message, card)
    {
      if !ok {
        return current;
      }
      next := |streams|;
      streams := streams + [Stream(scope, message, card, true, None, None, None, 0, None)];
      activeCards := activeCards[scope := card];
      cardScopes := cardScopes - {streams[current].message};
      if message != "" {
        cardScopes := cardScopes[message := scope];
      }
      if scope in runs {
        objects := objects[runs[scope] := objects[runs[scope]].(state := state, published := events)];
        objects := objects[runs[scope] := objects[runs[scope]].(stream := next)];
      }
      UpdateStream(current, Marked(state, Continued), true);
      FinishStream(current);
    }

    method StopRun(scope: string) returns (object_: Option<nat>)
      modifies this`runs
      ensures View() == AfterStop(old(View()), scope)
      ensures object_ == if scope in old(runs) then Some(old(runs)[scope]) else None
    {
      object_ := if scope in runs then Some(runs[scope]) else None;
      runs := runs - {scope};
    }

    /** `stopRunByCardMessage`, undisturbed: stops the run that streams into the card. */
    method StopRunByCardMessage(message: string) returns (object_: Option<nat>)
      modifies this`runs
      ensures object_.Some? <==> message in cardScopes && cardScopes[message] in old(runs)
      ensures object_.Some? ==>
                object_.value == old(runs)[cardScopes[message]] && View() == AfterStop(old(View()), cardScopes[message])
      ensures object_.None? ==> View() == old(View())
    {
      if message !in cardScopes {
        return None;
      }
      object_ := StopRun(cardScopes[message]);
    }
  }
}
