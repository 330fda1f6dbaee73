/** All interleavings of the goroutines that meet in the ask broker
    (internal/ask/broker.go). A run is any sequence of actions; an action that is
    not enabled changes nothing. Between the check of a click and its `settle`,
    and between `settle` and its send, any other action may happen. */
module AskProtocol {
  import opened Common
  import opened AskModel
  import opened Spaces

  /** Why a goroutine called `settle`, hence what it does afterwards. */
  datatype Purpose =
    | Click                                                     // report an outcome to the user
    | Quiet                                                     // timeout callback or `Invalidate`
    | DispatchFailure                                           // `Register` goes on to its receive
    | Sweep(reason: string, todo: seq<AskId>, entered: set<AskId>)  // `InvalidateScope` goes on with the rest

  /** Where a goroutine stands. */
  datatype Thread =
    | Dispatching
    | Settling(id: AskId, result: Result, purpose: Purpose)
    | Sending(id: AskId, result: Result, purpose: Purpose)
    | Waiting
    | Returned(result: Result)
    | Reported(id: AskId, result: Result, outcome: Outcome)
    | Told(outcome: Outcome)                                    // a click that did not get as far as `settle`
    | Sweeping(reason: string, todo: seq<AskId>, entered: set<AskId>)
    | Ended

  datatype State = State(shared: Shared, threads: map<Goroutine, Thread>)

  const START := State(EMPTY_SHARED, map[])

  datatype Action =
    | Register(id: AskId, nonce: string, chatId: string, scope: string, questions: seq<Question>, freeform: bool)
    | DispatchSucceeds(id: AskId, message: string)
    | DispatchFails(id: AskId, error: string)
    | ReceiveResult(id: AskId)
    | ClickToggle(n: nat, id: AskId, nonce: string, question: int, key: string, listed: seq<seq<string>>)
    | ClickSelect(n: nat, id: AskId, nonce: string, key: string, operator: string)
    | ClickSubmit(n: nat, id: AskId, nonce: string, operator: string, listed: seq<seq<string>>)
    | EnterText(n: nat, id: AskId, given: Option<string>, operator: string, text: string)
    | InvalidateOne(n: nat, id: AskId, reason: string)
    | InvalidateAll(n: nat, scope: string, reason: string, order: seq<AskId>)
    | TimeoutFires(id: AskId)
    | RunSettle(g: Goroutine)
    | RunSend(g: Goroutine)
    | SweepNext(g: Goroutine)
    | RetentionFires(id: AskId)

  ghost function Spawn(s: State, g: Goroutine, t: Thread): State {
    s.(threads := s.threads[g := t])
  }

  /** A click whose check succeeded goes on to settle with `result`; another one is told why not. */
  ghost function BeginClick(s: State, n: nat, id: AskId, refused: Option<Outcome>, result: Result): State {
    if Caller(n) in s.threads then s
    else Spawn(s, Caller(n), if refused.Some? then Told(refused.value) else Settling(id, result, Click))
  }

  ghost function QuestionCount(s: Shared, id: AskId): nat {
    if id in s.asks then |s.asks[id].questions| else 0
  }

  /** What a goroutine does when its `settle` returned false. */
  ghost function AfterLosing(t: Thread): Thread
    requires t.Settling?
  {
    match t.purpose
    case Click => Reported(t.id, t.result, AlreadySettled)
    case Quiet => Ended
    case DispatchFailure => Waiting
    case Sweep(reason, todo, entered) => Sweeping(reason, todo, entered)
  }

  /** What a goroutine does when its `settle` returned true. */
  ghost function AfterSending(t: Thread): Thread
    requires t.Sending?
  {
    match t.purpose
    case Click => Reported(t.id, t.result, Accepted)
    case Quiet => Ended
    case DispatchFailure => Waiting
    case Sweep(reason, todo, entered) => Sweeping(reason, todo, entered)
  }

  ghost function Step(s: State, a: Action): State {
    match a
    case Register(id, nonce, chatId, scope, questions, freeform) =>
      if id in s.shared.asks || !GoodInput(chatId, questions) then s
      else Spawn(s, Registrar(id), Dispatching)
        .(shared := Registered(s.shared, id, FreshAsk(nonce, scope, questions, freeform)))
    case DispatchSucceeds(id, message) =>
      if Registrar(id) !in s.threads || !s.threads[Registrar(id)].Dispatching? then s
      else Spawn(s, Registrar(id), Waiting).(shared := CardRecorded(s.shared, id, message))
    case DispatchFails(id, error) =>
      if Registrar(id) !in s.threads || !s.threads[Registrar(id)].Dispatching? then s
      else Spawn(s, Registrar(id),
                 Settling(id, InvalidatedResult("card dispatch failed: " + error), DispatchFailure))
    case ReceiveResult(id) =>
      if Registrar(id) !in s.threads || !s.threads[Registrar(id)].Waiting?
         || id !in s.shared.asks || s.shared.asks[id].resolve == [] then s
      else Spawn(s, Registrar(id), Returned(s.shared.asks[id].resolve[0])).(shared := AfterReceive(s.shared, id))
    case ClickToggle(n, id, nonce, question, key, listed) =>
      var outcome := ToggleVerdict(s.shared, id, nonce, question, key);
      var after := AfterToggle(s.shared, id, nonce, question, key, listed);
      if Caller(n) in s.threads then s
      else if outcome != Toggled then Spawn(s, Caller(n), Told(outcome))
      else if id !in after.asks || !ListsAll(listed, after.asks[id].selections) then s
      else Spawn(s, Caller(n), Told(outcome)).(shared := after)
    case ClickSelect(n, id, nonce, key, operator) =>
      BeginClick(s, n, id, SelectVerdict(s.shared, id, nonce, key), Answer([[key]], operator, ""))
    case ClickSubmit(n, id, nonce, operator, listed) =>
      if id in s.shared.asks && !ListsAll(listed, s.shared.asks[id].selections) then s
      else BeginClick(s, n, id, SubmitVerdict(s.shared, id, nonce, listed), Answer(listed, operator, ""))
    case EnterText(n, id, given, operator, text) =>
      BeginClick(s, n, id, TextVerdict(s.shared, id, given, text),
                 Answer(EmptySelections(QuestionCount(s.shared, id)), operator, TrimSpace(text)))
    case InvalidateOne(n, id, reason) =>
      if Caller(n) in s.threads then s else Spawn(s, Caller(n), Settling(id, InvalidatedResult(reason), Quiet))
    case InvalidateAll(n, scope, reason, order) =>
      if Caller(n) in s.threads || !Lists(order, OpenInScope(s.shared, scope)) then s
      else Spawn(s, Caller(n), Sweeping(reason, order, InScope(s.shared, scope)))
    case TimeoutFires(id) =>
      if id !in s.shared.timers then s
      else Spawn(s, Timer(id), Settling(id, TIMED_OUT_RESULT, Quiet)).(shared := AfterTimerFires(s.shared, id))
    case RunSettle(g) =>
      if g !in s.threads || !s.threads[g].Settling? then s
      else
        var t := s.threads[g];
        Spawn(s, g, if Settleable(s.shared, t.id) then Sending(t.id, t.result, t.purpose) else AfterLosing(t))
          .(shared := AfterSettle(s.shared, t.id, t.result, g))
    case RunSend(g) =>
      if g !in s.threads || !s.threads[g].Sending? then s
      else
        var t := s.threads[g];
        Spawn(s, g, AfterSending(t)).(shared := AfterSend(s.shared, t.id, t.result))
    case SweepNext(g) =>
      if g !in s.threads || !s.threads[g].Sweeping? || s.threads[g].todo == [] then s
      else
        var t := s.threads[g];
        Spawn(s, g, Settling(t.todo[0], InvalidatedResult(t.reason), Sweep(t.reason, t.todo[1..], t.entered)))
    case RetentionFires(id) =>
      s.(shared := AfterRetention(s.shared, id))
  }

  /** Every ask of the scope, settled or not. */
  ghost function InScope(s: Shared, scope: string): set<AskId> {
    set id | id in s.asks && s.asks[id].scope == scope
  }

  ghost function Run(actions: seq<Action>): State {
    if actions == [] then START else Step(Run(actions[..|actions| - 1]), actions[|actions| - 1])
  }

  // ----- the invariant ------------------------------------------------------

  /** The selections of an ask: what the accepted toggles mean, listed. */
  ghost predicate SelectionsOk(questions: seq<Question>, selections: seq<set<string>>, listed: seq<seq<string>>,
                               clicks: seq<seq<string>>) {
    && questions != []
    && |selections| == |clicks| == |questions|
    && ListsAll(listed, selections)
    && (forall i :: 0 <= i < |questions| ==> selections[i] == AfterClicks(questions[i], clicks[i]))
    && (forall i, key :: 0 <= i < |questions| && key in selections[i] ==> OptionExists(questions[i], key))
  }

  /** One ask by itself. */
  ghost predicate AskOk(a: Ask) {
    && SelectionsOk(a.questions, a.selections, a.listed, a.clicks)
    && (a.settled <==> a.result.Some?)
    && (a.settled <==> a.winner.Some?)
    && (a.settled ==> AnsweredOk(a.questions, a.result.value))
    && (!a.settled ==> a.resolve == [])
  }

  ghost predicate AnsweredOk(questions: seq<Question>, r: Result) {
    r.kind.Answered? ==> ValidAnswer(questions, r)
  }

  /** The broker by itself. */
  ghost predicate SharedOk(s: Shared) {
    && s.pending <= s.asks.Keys
    && s.timers <= s.asks.Keys
    && (forall id :: id in s.asks ==> AskOk(s.asks[id]))
    && (forall id :: id in s.asks && !s.asks[id].settled ==> id in s.pending)
    && s.expiring <= s.pending
    && (forall id :: id in s.pending ==> (id in s.expiring <==> s.asks[id].settled))
    && (forall id :: id in s.timers ==> !s.asks[id].settled)
  }

  ghost predicate SweepOk(s: Shared, entered: set<AskId>, todo: seq<AskId>, current: set<AskId>) {
    forall id :: id in entered ==> id in s.asks && (s.asks[id].settled || id in todo || id in current)
  }

  ghost predicate PurposeOk(s: Shared, g: Goroutine, id: AskId, p: Purpose, current: set<AskId>) {
    match p
    case Click => g.Caller?
    case Quiet => !g.Registrar?
    case DispatchFailure => g == Registrar(id)
    case Sweep(_, todo, entered) => g.Caller? && SweepOk(s, entered, todo, current)
  }

  /** One goroutine against the broker. */
  ghost predicate ThreadOk(s: Shared, g: Goroutine, t: Thread) {
    && (g.Registrar? ==> g.ask in s.asks && (t.Dispatching? || t.Waiting? || t.Returned? || t.Settling? || t.Sending?))
    && (g.Timer? ==> g.ask in s.asks && ((t.Settling? && t.id == g.ask) || (t.Sending? && t.id == g.ask) || t.Ended?))
    && match t
       case Dispatching => g.Registrar?
       case Waiting => g.Registrar?
       case Returned(r) => g.Registrar? && g.ask in s.asks && s.asks[g.ask].result == Some(r)
       case Settling(id, r, p) =>
         (r.kind.Answered? ==> id in s.asks && ValidAnswer(s.asks[id].questions, r))
         && (p.Click? ==> id in s.asks)
         && PurposeOk(s, g, id, p, {id})
       case Sending(id, r, p) =>
         && id in s.asks && s.asks[id].result == Some(r) && s.asks[id].winner == Some(g)
         && PurposeOk(s, g, id, p, {})
       case Reported(id, r, outcome) =>
         && g.Caller? && id in s.asks && s.asks[id].settled
         && (outcome.Accepted? ==> s.asks[id].result == Some(r) && s.asks[id].winner == Some(g))
       case Told(outcome) => g.Caller? && outcome != Accepted
       case Sweeping(_, todo, entered) => g.Caller? && SweepOk(s, entered, todo, {})
       case Ended => !g.Registrar?
  }

  /** Where the result of a settled ask is: with the winner about to send it, in
      the channel, or already returned by `Register`. */
  ghost predicate DeliveryOk(s: State, id: AskId)
    requires id in s.shared.asks
  {
    var a := s.shared.asks[id];
    && Registrar(id) in s.threads
    && if !a.settled then
         && !s.threads[Registrar(id)].Returned?
         && (id in s.shared.timers
             || (Timer(id) in s.threads && s.threads[Timer(id)] == Settling(id, TIMED_OUT_RESULT, Quiet)))
       else
         && a.winner.Some? && a.result.Some? && a.winner.value in s.threads
         && var w := s.threads[a.winner.value];
            if w.Sending? && w.id == id then a.resolve == [] && !s.threads[Registrar(id)].Returned?
            else if s.threads[Registrar(id)].Returned? then a.resolve == []
            else a.resolve == [a.result.value]
  }

  ghost predicate ThreadsOk(s: State) {
    forall g :: g in s.threads ==> ThreadOk(s.shared, g, s.threads[g])
  }

  ghost predicate DeliveriesOk(s: State) {
    forall id :: id in s.shared.asks ==> DeliveryOk(s, id)
  }

  /** An armed timeout has not fired yet. */
  ghost predicate TimersOk(s: State) {
    forall id :: id in s.shared.timers ==> Timer(id) !in s.threads
  }

  ghost predicate Inv(s: State) {
    SharedOk(s.shared) && ThreadsOk(s) && DeliveriesOk(s) && TimersOk(s)
  }

  // ----- monotonicity: what no action ever undoes ---------------------------

  /** Later broker states only add asks, settle them and keep every result. */
  ghost predicate Grows(s: Shared, t: Shared) {
    forall id :: id in s.asks ==> id in t.asks && AskGrows(s.asks[id], t.asks[id])
  }

  ghost predicate AskGrows(a: Ask, b: Ask) {
    && b.questions == a.questions
    && b.scope == a.scope && b.nonce == a.nonce && b.freeform == a.freeform
    && (a.settled ==> b.settled && b.result == a.result && b.winner == a.winner)
  }

  lemma ThreadOkGrows(s: Shared, t: Shared, g: Goroutine, th: Thread)
    requires Grows(s, t) && SharedOk(s) && SharedOk(t) && ThreadOk(s, g, th)
    ensures ThreadOk(t, g, th)
  {
  }

  // ----- preservation -------------------------------------------------------

  /** A listing of a selection is a valid answer list for its question. */
  lemma ListedAnswerOk(a: Ask, listed: seq<seq<string>>, i: nat)
    requires AskOk(a) && ListsAll(listed, a.selections) && i < |a.questions|
    ensures Distinct(listed[i]) && forall key :: key in listed[i] ==> OptionExists(a.questions[i], key)
    ensures !a.questions[i].multiSelect ==> |listed[i]| <= 1
  {
    ToggleMeaning(a.questions[i], a.clicks[i]);
    ListingSize(listed[i], a.selections[i]);
  }

  lemma SubmittedAnswerOk(s: Shared, id: AskId, nonce: string, operator: string, listed: seq<seq<string>>)
    requires SharedOk(s) && id in s.asks && ListsAll(listed, s.asks[id].selections)
    requires SubmitVerdict(s, id, nonce, listed).None?
    ensures ValidAnswer(s.asks[id].questions, Answer(listed, operator, ""))
  {
    forall i | 0 <= i < |listed|
      ensures Distinct(listed[i]) && (forall key :: key in listed[i] ==> OptionExists(s.asks[id].questions[i], key))
      ensures !s.asks[id].questions[i].multiSelect ==> |listed[i]| <= 1
    {
      ListedAnswerOk(s.asks[id], listed, i);
    }
  }

  lemma ToggleKeepsAsk(s: Shared, id: AskId, nonce: string, question: int, key: string, listed: seq<seq<string>>)
    requires SharedOk(s)
    requires ToggleVerdict(s, id, nonce, question, key) == Toggled
    requires ListsAll(listed, AfterToggle(s, id, nonce, question, key, listed).asks[id].selections)
    ensures AskOk(AfterToggle(s, id, nonce, question, key, listed).asks[id])
  {
    var a := s.asks[id];
    var b := AfterToggle(s, id, nonce, question, key, listed).asks[id];
    assert b.clicks[question][..|b.clicks[question]| - 1] == a.clicks[question];
  }

  /** A step of goroutine `g` that concerns the ask `id` and nothing else. */
  ghost predicate Concerns(s: State, t: State, g: Goroutine, id: AskId) {
    && t.shared.asks.Keys == s.shared.asks.Keys + {id}
    && (forall o :: o in s.shared.asks && o != id ==> t.shared.asks[o] == s.shared.asks[o])
    && (forall o :: o != id ==> (o in t.shared.pending <==> o in s.shared.pending))
    && (forall o :: o != id ==> (o in t.shared.timers <==> o in s.shared.timers))
    && (forall o :: o != id ==> (o in t.shared.expiring <==> o in s.shared.expiring))
    && (g == Registrar(id) || g == Timer(id) || g.Caller?)
    && t.threads.Keys == s.threads.Keys + {g}
    && (forall h :: h in s.threads && h != g ==> t.threads[h] == s.threads[h])
    && (g in s.threads && s.threads[g].Sending? ==> s.threads[g].id == id)
    && (t.threads[g].Sending? ==> t.threads[g].id == id)
  }

  lemma OthersKeepShared(s: State, t: State, g: Goroutine, id: AskId)
    requires SharedOk(s.shared) && Concerns(s, t, g, id)
    requires AskOk(t.shared.asks[id])
    requires !t.shared.asks[id].settled ==> id in t.shared.pending
    requires id in t.shared.expiring <==> id in t.shared.pending && t.shared.asks[id].settled
    requires id in t.shared.timers ==> !t.shared.asks[id].settled
    ensures SharedOk(t.shared)
  {
    forall o | o in t.shared.asks ensures AskOk(t.shared.asks[o]) {
      assert o != id ==> AskOk(s.shared.asks[o]);
    }
  }

  lemma OthersGrow(s: State, t: State, g: Goroutine, id: AskId)
    requires Concerns(s, t, g, id)
    requires id in s.shared.asks ==> AskGrows(s.shared.asks[id], t.shared.asks[id])
    ensures Grows(s.shared, t.shared)
  {
    forall o | o in s.shared.asks ensures AskGrows(s.shared.asks[o], t.shared.asks[o]) {
    }
  }

  lemma OthersKeepDelivery(s: State, t: State, g: Goroutine, id: AskId)
    requires DeliveriesOk(s) && Concerns(s, t, g, id) && DeliveryOk(t, id)
    ensures DeliveriesOk(t)
  {
    forall o | o in s.shared.asks && o != id ensures DeliveryOk(t, o) {
      assert DeliveryOk(s, o);
    }
  }

  lemma OthersKeepTimers(s: State, t: State, g: Goroutine, id: AskId)
    requires TimersOk(s) && Concerns(s, t, g, id)
    requires id in t.shared.timers ==> Timer(id) !in t.threads
    ensures TimersOk(t)
  {
  }

  lemma OthersKeepThreads(s: State, t: State, g: Goroutine)
    requires SharedOk(s.shared) && SharedOk(t.shared)
    requires Grows(s.shared, t.shared)
    requires t.threads.Keys == s.threads.Keys + {g}
    requires forall h :: h in s.threads && h != g ==> t.threads[h] == s.threads[h]
    requires ThreadsOk(s) && ThreadOk(t.shared, g, t.threads[g])
    ensures ThreadsOk(t)
  {
    forall h | h in t.threads && h != g ensures ThreadOk(t.shared, h, t.threads[h]) {
      ThreadOkGrows(s.shared, t.shared, h, t.threads[h]);
    }
  }

  /** What is left to show for such a step. */
  lemma Assemble(s: State, t: State, g: Goroutine, id: AskId)
    requires Inv(s)
    requires Concerns(s, t, g, id)
    requires AskOk(t.shared.asks[id])
    requires !t.shared.asks[id].settled ==> id in t.shared.pending
    requires id in t.shared.expiring <==> id in t.shared.pending && t.shared.asks[id].settled
    requires id in t.shared.timers ==> !t.shared.asks[id].settled
    requires id in s.shared.asks ==> AskGrows(s.shared.asks[id], t.shared.asks[id])
    requires ThreadOk(t.shared, g, t.threads[g])
    requires DeliveryOk(t, id)
    requires id in t.shared.timers ==> Timer(id) !in t.threads
    ensures Inv(t) && Grows(s.shared, t.shared)
  {
    OthersKeepShared(s, t, g, id);
    OthersKeepDelivery(s, t, g, id);
    OthersGrow(s, t, g, id);
    OthersKeepThreads(s, t, g);
    OthersKeepTimers(s, t, g, id);
  }

  /** A step after which the ask is as open as before. */
  lemma AssembleSameTables(s: State, t: State, g: Goroutine, id: AskId)
    requires Inv(s) && id in s.shared.asks && id in t.shared.asks && g in t.threads
    requires t.shared == s.shared.(asks := s.shared.asks[id := t.shared.asks[id]])
    requires t.threads == s.threads[g := t.threads[g]]
    requires g == Registrar(id) || g.Caller? || (g == Timer(id) && g in s.threads)
    requires g in s.threads && s.threads[g].Sending? ==> s.threads[g].id == id
    requires !t.threads[g].Sending?
    requires t.shared.asks[id].settled == s.shared.asks[id].settled && AskGrows(s.shared.asks[id], t.shared.asks[id])
    requires AskOk(t.shared.asks[id]) && ThreadOk(t.shared, g, t.threads[g]) && DeliveryOk(t, id)
    ensures Inv(t) && Grows(s.shared, t.shared)
  {
    Assemble(s, t, g, id);
  }

  /** A step that leaves the broker alone. */
  lemma AssembleQuiet(s: State, t: State, g: Goroutine)
    requires Inv(s) && t.shared == s.shared && g.Caller?
    requires t.threads.Keys == s.threads.Keys + {g}
    requires forall h :: h in s.threads && h != g ==> t.threads[h] == s.threads[h]
    requires g in s.threads ==> !s.threads[g].Sending?
    requires !t.threads[g].Sending? && ThreadOk(s.shared, g, t.threads[g])
    ensures Inv(t)
  {
    forall o | o in t.shared.asks ensures DeliveryOk(t, o) {
      assert DeliveryOk(s, o);
    }
  }

  lemma FreshAskOk(a: Action)
    requires a.Register? && GoodInput(a.chatId, a.questions)
    ensures AskOk(FreshAsk(a.nonce, a.scope, a.questions, a.freeform))
  {
  }

  lemma RegisterKeepsInv(s: State, a: Action)
    requires Inv(s) && a.Register?
    ensures Inv(Step(s, a)) && Grows(s.shared, Step(s, a).shared)
  {
    var t := Step(s, a);
    if a.id !in s.shared.asks && GoodInput(a.chatId, a.questions) {
      FreshAskOk(a);
      assert Registrar(a.id) in s.threads ==> ThreadOk(s.shared, Registrar(a.id), s.threads[Registrar(a.id)]);
      assert Timer(a.id) in s.threads ==> ThreadOk(s.shared, Timer(a.id), s.threads[Timer(a.id)]);
      Assemble(s, t, Registrar(a.id), a.id);
    }
  }

  lemma DispatchKeepsInv(s: State, a: Action)
    requires Inv(s) && (a.DispatchSucceeds? || a.DispatchFails?)
    ensures Inv(Step(s, a)) && Grows(s.shared, Step(s, a).shared)
  {
    if Registrar(a.id) in s.threads && s.threads[Registrar(a.id)].Dispatching? {
      assert ThreadOk(s.shared, Registrar(a.id), s.threads[Registrar(a.id)]);
      assert AskOk(s.shared.asks[a.id]) && DeliveryOk(s, a.id);
      DispatchDelivers(s, a);
      AssembleSameTables(s, Step(s, a), Registrar(a.id), a.id);
    }
  }

  lemma DispatchDelivers(s: State, a: Action)
    requires a.DispatchSucceeds? || a.DispatchFails?
    requires a.id in s.shared.asks && AskOk(s.shared.asks[a.id]) && DeliveryOk(s, a.id)
    requires s.threads[Registrar(a.id)].Dispatching? && ThreadOk(s.shared, Registrar(a.id), Dispatching)
    ensures var t := Step(s, a);
            && t.threads == s.threads[Registrar(a.id) := t.threads[Registrar(a.id)]]
            && t.shared == s.shared.(asks := s.shared.asks[a.id := t.shared.asks[a.id]])
            && t.shared.asks[a.id] == s.shared.asks[a.id].(cardMessage := t.shared.asks[a.id].cardMessage)
            && !t.threads[Registrar(a.id)].Sending?
            && AskOk(t.shared.asks[a.id]) && DeliveryOk(t, a.id)
            && ThreadOk(t.shared, Registrar(a.id), t.threads[Registrar(a.id)])
  {
  }

  lemma ReceiveKeepsInv(s: State, id: AskId)
    requires Inv(s)
    ensures Inv(Step(s, ReceiveResult(id))) && Grows(s.shared, Step(s, ReceiveResult(id)).shared)
  {
    if Registrar(id) in s.threads && s.threads[Registrar(id)].Waiting? {
      assert ThreadOk(s.shared, Registrar(id), s.threads[Registrar(id)]);
      assert AskOk(s.shared.asks[id]) && DeliveryOk(s, id);
      if s.shared.asks[id].resolve != [] {
        ReceiveDelivers(s, id);
        AssembleSameTables(s, Step(s, ReceiveResult(id)), Registrar(id), id);
      }
    }
  }

  lemma ReceiveDelivers(s: State, id: AskId)
    requires id in s.shared.asks && AskOk(s.shared.asks[id]) && DeliveryOk(s, id)
    requires s.threads[Registrar(id)].Waiting? && ThreadOk(s.shared, Registrar(id), Waiting)
    requires s.shared.asks[id].resolve != []
    ensures var t := Step(s, ReceiveResult(id));
            && t == State(AfterReceive(s.shared, id),
                          s.threads[Registrar(id) := Returned(s.shared.asks[id].resolve[0])])
            && AskOk(t.shared.asks[id]) && DeliveryOk(t, id)
            && ThreadOk(t.shared, Registrar(id), t.threads[Registrar(id)])
  {
  }

  lemma ToggleKeepsInv(s: State, a: Action)
    requires Inv(s) && a.ClickToggle?
    ensures Inv(Step(s, a)) && Grows(s.shared, Step(s, a).shared)
  {
    var t := Step(s, a);
    if ToggleVerdict(s.shared, a.id, a.nonce, a.question, a.key) == Toggled && t != s {
      ToggleKeepsAsk(s.shared, a.id, a.nonce, a.question, a.key, a.listed);
      ReselectKeepsInv(s, t, Caller(a.n), a.id);
    } else if t != s {
      AssembleQuiet(s, t, Caller(a.n));
    }
  }

  /** Only the selections of an open ask changed. */
  lemma ReselectKeepsInv(s: State, t: State, g: Goroutine, id: AskId)
    requires Inv(s) && id in s.shared.asks && id in t.shared.asks && AskOk(t.shared.asks[id])
    requires var (a, b) := (s.shared.asks[id], t.shared.asks[id]);
             b == a.(selections := b.selections, listed := b.listed, clicks := b.clicks)
    requires g.Caller? && g !in s.threads
    requires t == Spawn(s, g, Told(Toggled)).(shared := s.shared.(asks := s.shared.asks[id := t.shared.asks[id]]))
    ensures Inv(t) && Grows(s.shared, t.shared)
  {
    assert DeliveryOk(s, id) && AskOk(s.shared.asks[id]);
    Assemble(s, t, g, id);
  }

  /** A goroutine's obligations do not look at selections. */
  lemma ThreadOkShape(s: Shared, t: Shared, g: Goroutine, th: Thread)
    requires ThreadOk(s, g, th) && t.asks.Keys == s.asks.Keys
    requires forall o :: o in s.asks ==>
        && t.asks[o].questions == s.asks[o].questions && t.asks[o].settled == s.asks[o].settled
        && t.asks[o].result == s.asks[o].result && t.asks[o].winner == s.asks[o].winner
    ensures ThreadOk(t, g, th)
  {
  }

  /** A click that settles must bring a valid answer. */
  lemma BeginKeepsInv(s: State, n: nat, id: AskId, refused: Option<Outcome>, result: Result)
    requires Inv(s) && refused != Some(Accepted)
    requires refused.None? ==> id in s.shared.asks && ValidAnswer(s.shared.asks[id].questions, result)
    ensures Inv(BeginClick(s, n, id, refused, result)) && BeginClick(s, n, id, refused, result).shared == s.shared
  {
    if Caller(n) !in s.threads {
      AssembleQuiet(s, BeginClick(s, n, id, refused, result), Caller(n));
    }
  }

  lemma SelectKeepsInv(s: State, a: Action)
    requires Inv(s) && a.ClickSelect?
    ensures Inv(Step(s, a)) && Step(s, a).shared == s.shared
  {
    var result := Answer([[a.key]], a.operator, "");
    assert result.answers[0] == [a.key];
    BeginKeepsInv(s, a.n, a.id, SelectVerdict(s.shared, a.id, a.nonce, a.key), result);
  }

  lemma SubmitKeepsInv(s: State, a: Action)
    requires Inv(s) && a.ClickSubmit?
    ensures Inv(Step(s, a)) && Step(s, a).shared == s.shared
  {
    var refused := SubmitVerdict(s.shared, a.id, a.nonce, a.listed);
    if Step(s, a) != s {
      if refused.None? {
        SubmittedAnswerOk(s.shared, a.id, a.nonce, a.operator, a.listed);
      }
      BeginKeepsInv(s, a.n, a.id, refused, Answer(a.listed, a.operator, ""));
    }
  }

  lemma TextKeepsInv(s: State, a: Action)
    requires Inv(s) && a.EnterText?
    ensures Inv(Step(s, a)) && Step(s, a).shared == s.shared
  {
    var result := Answer(EmptySelections(QuestionCount(s.shared, a.id)), a.operator, TrimSpace(a.text));
    assert TrimSpace(a.text) != "" ==> !Blank(TrimSpace(a.text));
    BeginKeepsInv(s, a.n, a.id, TextVerdict(s.shared, a.id, a.given, a.text), result);
  }

  lemma InvalidateKeepsInv(s: State, a: Action)
    requires Inv(s) && (a.InvalidateOne? || a.InvalidateAll?)
    ensures Inv(Step(s, a)) && Step(s, a).shared == s.shared
  {
    if Step(s, a) != s {
      AssembleQuiet(s, Step(s, a), Caller(a.n));
    }
  }

  lemma TimeoutKeepsInv(s: State, a: Action)
    requires Inv(s) && a.TimeoutFires?
    ensures Inv(Step(s, a)) && Grows(s.shared, Step(s, a).shared)
  {
    var t := Step(s, a);
    if a.id in s.shared.timers {
      assert DeliveryOk(s, a.id) && AskOk(s.shared.asks[a.id]);
      Assemble(s, t, Timer(a.id), a.id);
    }
  }

  lemma SettleKeepsInv(s: State, g: Goroutine)
    requires Inv(s)
    ensures Inv(Step(s, RunSettle(g))) && Grows(s.shared, Step(s, RunSettle(g)).shared)
  {
    if g in s.threads && s.threads[g].Settling? {
      var th := s.threads[g];
      assert ThreadOk(s.shared, g, th);
      if Settleable(s.shared, th.id) {
        WinningKeepsInv(s, g);
      } else if th.id in s.shared.asks {
        LosingKeepsInv(s, g);
      } else {
        AssembleQuiet(s, Step(s, RunSettle(g)), g);
      }
    }
  }

  lemma LosingKeepsInv(s: State, g: Goroutine)
    requires Inv(s) && g in s.threads && s.threads[g].Settling?
    requires s.threads[g].id in s.shared.asks && !Settleable(s.shared, s.threads[g].id)
    ensures Inv(Step(s, RunSettle(g))) && Grows(s.shared, Step(s, RunSettle(g)).shared)
  {
    var th := s.threads[g];
    assert ThreadOk(s.shared, g, th);
    assert AskOk(s.shared.asks[th.id]) && DeliveryOk(s, th.id);
    LosingOk(s.shared, g, th);
    AssembleSameTables(s, Step(s, RunSettle(g)), g, th.id);
  }

  lemma WinningKeepsInv(s: State, g: Goroutine)
    requires Inv(s) && g in s.threads && s.threads[g].Settling? && Settleable(s.shared, s.threads[g].id)
    ensures Inv(Step(s, RunSettle(g))) && Grows(s.shared, Step(s, RunSettle(g)).shared)
  {
    var t := Step(s, RunSettle(g));
    var th := s.threads[g];
    assert ThreadOk(s.shared, g, th);
    assert AskOk(s.shared.asks[th.id]) && DeliveryOk(s, th.id);
    SweepGrows(s.shared, t.shared, g, th);
    assert t.threads[g] == Sending(th.id, th.result, th.purpose);
    assert ThreadOk(t.shared, g, t.threads[g]);
    assert AskOk(t.shared.asks[th.id]) && DeliveryOk(t, th.id);
    Assemble(s, t, g, th.id);
  }

  /** Winning settles the ask a sweep was busy with. */
  lemma SweepGrows(s: Shared, t: Shared, g: Goroutine, th: Thread)
    requires SharedOk(s) && th.Settling? && ThreadOk(s, g, th) && Settleable(s, th.id)
    requires t == AfterSettle(s, th.id, th.result, g)
    ensures PurposeOk(t, g, th.id, th.purpose, {})
  {
  }

  /** A goroutine that lost goes on correctly. */
  lemma LosingOk(s: Shared, g: Goroutine, th: Thread)
    requires SharedOk(s) && th.Settling? && ThreadOk(s, g, th)
    ensures !Settleable(s, th.id) && th.id in s.asks ==> ThreadOk(s, g, AfterLosing(th))
  {
  }

  lemma SendKeepsInv(s: State, g: Goroutine)
    requires Inv(s)
    ensures Inv(Step(s, RunSend(g))) && Grows(s.shared, Step(s, RunSend(g)).shared)
  {
    var t := Step(s, RunSend(g));
    if g in s.threads && s.threads[g].Sending? {
      var th := s.threads[g];
      assert ThreadOk(s.shared, g, th) && DeliveryOk(s, th.id) && AskOk(s.shared.asks[th.id]);
      SendDelivers(s, g);
      AssembleSameTables(s, t, g, th.id);
    }
  }

  lemma SendDelivers(s: State, g: Goroutine)
    requires g in s.threads && s.threads[g].Sending? && ThreadOk(s.shared, g, s.threads[g])
    requires AskOk(s.shared.asks[s.threads[g].id]) && DeliveryOk(s, s.threads[g].id)
    ensures var t := Step(s, RunSend(g));
            var id := s.threads[g].id;
            && t == State(AfterSend(s.shared, id, s.threads[g].result), s.threads[g := AfterSending(s.threads[g])])
            && AskOk(t.shared.asks[id]) && DeliveryOk(t, id) && ThreadOk(t.shared, g, t.threads[g])
  {
    var t := Step(s, RunSend(g));
    ThreadOkShape(s.shared, t.shared, g, AfterSending(s.threads[g]));
  }

  lemma SweepKeepsInv(s: State, g: Goroutine)
    requires Inv(s)
    ensures Inv(Step(s, SweepNext(g))) && Step(s, SweepNext(g)).shared == s.shared
  {
    var t := Step(s, SweepNext(g));
    if t != s {
      assert ThreadOk(s.shared, g, s.threads[g]);
      AssembleQuiet(s, t, g);
    }
  }

  lemma RetentionKeepsInv(s: State, a: Action)
    requires Inv(s) && a.RetentionFires?
    ensures Inv(Step(s, a)) && Grows(s.shared, Step(s, a).shared)
  {
    var t := Step(s, a);
    if a.id in s.shared.expiring {
      assert DeliveryOk(s, a.id) && AskOk(s.shared.asks[a.id]);
      assert ThreadOk(s.shared, Registrar(a.id), s.threads[Registrar(a.id)]);
      Assemble(s, t, Registrar(a.id), a.id);
    }
  }

  lemma StepKeepsInv(s: State, a: Action)
    requires Inv(s)
    ensures Inv(Step(s, a)) && Grows(s.shared, Step(s, a).shared)
  {
    match a
    case Register(_, _, _, _, _, _) => RegisterKeepsInv(s, a);
    case DispatchSucceeds(_, _) => DispatchKeepsInv(s, a);
    case DispatchFails(_, _) => DispatchKeepsInv(s, a);
    case ReceiveResult(id) => ReceiveKeepsInv(s, id);
    case ClickToggle(_, _, _, _, _, _) => ToggleKeepsInv(s, a);
    case ClickSelect(_, _, _, _, _) => SelectKeepsInv(s, a);
    case ClickSubmit(_, _, _, _, _) => SubmitKeepsInv(s, a);
    case EnterText(_, _, _, _, _) => TextKeepsInv(s, a);
    case InvalidateOne(_, _, _) => InvalidateKeepsInv(s, a);
    case InvalidateAll(_, _, _, _) => InvalidateKeepsInv(s, a);
    case TimeoutFires(_) => TimeoutKeepsInv(s, a);
    case RunSettle(g) => SettleKeepsInv(s, g);
    case RunSend(g) => SendKeepsInv(s, g);
    case SweepNext(g) => SweepKeepsInv(s, g);
    case RetentionFires(_) => RetentionKeepsInv(s, a);
  }

  lemma {:induction false} RunKeepsInv(actions: seq<Action>)
    ensures Inv(Run(actions))
  {
    if actions != [] {
      RunKeepsInv(actions[..|actions| - 1]);
      StepKeepsInv(Run(actions[..|actions| - 1]), actions[|actions| - 1]);
    }
  }

  lemma RunSnoc(actions: seq<Action>, a: Action)
    ensures Run(actions + [a]) == Step(Run(actions), a)
  {
    assert (actions + [a])[..|actions|] == actions;
  }

  lemma StepGrows(origin: Shared, s: State, a: Action)
    requires Inv(s) && Grows(origin, s.shared)
    ensures Grows(origin, Step(s, a).shared)
  {
    StepKeepsInv(s, a);
    GrowsTransitively(origin, s.shared, Step(s, a).shared);
  }

  lemma GrowsTransitively(s: Shared, t: Shared, u: Shared)
    requires Grows(s, t) && Grows(t, u)
    ensures Grows(s, u)
  {
  }

  lemma {:induction false} RunGrows(past: seq<Action>, future: seq<Action>)
    ensures Grows(Run(past).shared, Run(past + future).shared)
  {
    if future == [] {
      assert past + future == past;
    } else {
      var before := past + future[..|future| - 1];
      assert past + future == before + [future[|future| - 1]];
      RunGrows(past, future[..|future| - 1]);
      RunKeepsInv(before);
      RunSnoc(before, future[|future| - 1]);
      StepGrows(Run(past).shared, Run(before), future[|future| - 1]);
    }
  }

  // ----- main results -------------------------------------------------------

  /** Once settled, an ask keeps its result and its winner whatever happens later;
      and no unsettled ask ever leaves the pending table. */
  lemma SettledForGood(past: seq<Action>, future: seq<Action>, id: AskId)
    requires id in Run(past).shared.asks
    ensures var a := Run(past).shared.asks[id];
            && id in Run(past + future).shared.asks
            && (a.settled ==>
                  && Run(past + future).shared.asks[id].result == a.result
                  && Run(past + future).shared.asks[id].winner == a.winner)
    ensures var (a, b) := (Run(past).shared.asks[id], Run(past + future).shared.asks[id]);
            b.nonce == a.nonce && b.scope == a.scope && b.questions == a.questions && b.freeform == a.freeform
    ensures !Run(past).shared.asks[id].settled ==> id in Run(past).shared.pending
  {
    RunGrows(past, future);
    RunKeepsInv(past);
  }

  /** At most one caller is told that its answer was accepted, and it is that
      caller's answer that `Register` returns. */
  lemma OneAccepted(actions: seq<Action>, g: Goroutine, id: AskId)
    requires g in Run(actions).threads
    requires Run(actions).threads[g].Reported? && Run(actions).threads[g].outcome == Accepted
    requires Run(actions).threads[g].id == id
    ensures forall h | h in Run(actions).threads && h != g && Run(actions).threads[h].Reported?
                       && Run(actions).threads[h].id == id :: Run(actions).threads[h].outcome != Accepted
    ensures Registrar(id) in Run(actions).threads
    ensures Run(actions).threads[Registrar(id)].Returned? ==>
              Run(actions).threads[Registrar(id)].result == Run(actions).threads[g].result
  {
    var s := Run(actions);
    RunKeepsInv(actions);
    assert ThreadOk(s.shared, g, s.threads[g]) && DeliveryOk(s, id);
    forall h | h in s.threads && h != g && s.threads[h].Reported? && s.threads[h].id == id
      ensures s.threads[h].outcome != Accepted
    {
      assert ThreadOk(s.shared, h, s.threads[h]);
    }
    assert ThreadOk(s.shared, Registrar(id), s.threads[Registrar(id)]);
  }

  /** The send at the end of `settle` always finds the channel empty, and no other
      goroutine is about to send for the same ask. */
  lemma SendNeverDropped(actions: seq<Action>, g: Goroutine)
    requires g in Run(actions).threads && Run(actions).threads[g].Sending?
    ensures var s := Run(actions);
            var id := s.threads[g].id;
            && id in s.shared.asks && s.shared.asks[id].resolve == []
            && Step(s, RunSend(g)).shared.asks[id].resolve == [s.threads[g].result]
            && forall h :: h in s.threads && s.threads[h].Sending? && s.threads[h].id == id ==> h == g
  {
    RunKeepsInv(actions);
    SenderFindsRoom(Run(actions), g);
  }

  lemma SenderFindsRoom(s: State, g: Goroutine)
    requires Inv(s) && g in s.threads && s.threads[g].Sending?
    ensures var id := s.threads[g].id;
            && id in s.shared.asks && s.shared.asks[id].resolve == []
            && Step(s, RunSend(g)).shared.asks[id].resolve == [s.threads[g].result]
            && forall h :: h in s.threads && s.threads[h].Sending? && s.threads[h].id == id ==> h == g
  {
    assert ThreadOk(s.shared, g, s.threads[g]) && DeliveryOk(s, s.threads[g].id);
    forall h | h in s.threads && s.threads[h].Sending? && s.threads[h].id == s.threads[g].id ensures h == g {
      assert ThreadOk(s.shared, h, s.threads[h]);
    }
  }

  /** `Register` can always be released: an open ask still has its timeout, and the
      result of a settled one is about to be sent, in the channel, or returned. */
  lemma NeverStranded(actions: seq<Action>, id: AskId)
    requires id in Run(actions).shared.asks
    ensures var s := Run(actions);
            var a := s.shared.asks[id];
            && Registrar(id) in s.threads
            && (a.settled <==> a.result.Some?)
            && if !a.settled then
                 || id in s.shared.timers
                 || (Timer(id) in s.threads && s.threads[Timer(id)] == Settling(id, TIMED_OUT_RESULT, Quiet))
               else
                 || s.threads[Registrar(id)] == Returned(a.result.value)
                 || a.resolve == [a.result.value]
                 || exists g, p :: g in s.threads && s.threads[g] == Sending(id, a.result.value, p)
  {
    var s := Run(actions);
    RunKeepsInv(actions);
    var a := s.shared.asks[id];
    assert DeliveryOk(s, id) && AskOk(a);
    assert ThreadOk(s.shared, Registrar(id), s.threads[Registrar(id)]);
    if a.settled {
      var g := a.winner.value;
      assert ThreadOk(s.shared, g, s.threads[g]);
      assert s.threads[g].Sending? && s.threads[g].id == id ==>
          s.threads[g] == Sending(id, a.result.value, s.threads[g].purpose);
    }
  }

  /** When `InvalidateScope` has worked off its list, every ask of the scope that
      was registered when it was entered is settled. */
  lemma SweepLeavesNothingOpen(past: seq<Action>, n: nat, scope: string, reason: string, order: seq<AskId>,
                               future: seq<Action>)
    requires Caller(n) !in Run(past).threads
    requires Lists(order, OpenInScope(Run(past).shared, scope))
    requires var s := Run(past + [InvalidateAll(n, scope, reason, order)] + future);
             Caller(n) in s.threads && s.threads[Caller(n)].Sweeping? && s.threads[Caller(n)].todo == []
    ensures var s := Run(past + [InvalidateAll(n, scope, reason, order)] + future);
            forall id :: id in Run(past).shared.asks && Run(past).shared.asks[id].scope == scope ==>
              id in s.shared.asks && s.shared.asks[id].settled
  {
    var called := past + [InvalidateAll(n, scope, reason, order)];
    assert called[..|called| - 1] == past;
    RunKeepsInv(past);
    SweepRemembers(called, n, InScope(Run(past).shared, scope), future);
    var s := Run(called + future);
    RunKeepsInv(called + future);
    assert ThreadOk(s.shared, Caller(n), s.threads[Caller(n)]);
  }

  /** How a step can move a goroutine started by a click or an invalidation. */
  ghost predicate Moves(t: Thread, u: Thread) {
    || u == t
    || (t.Settling? && (u == AfterLosing(t) || u == Sending(t.id, t.result, t.purpose)))
    || (t.Sending? && u == AfterSending(t))
    || (t.Sweeping? && t.todo != []
        && u == Settling(t.todo[0], InvalidatedResult(t.reason), Sweep(t.reason, t.todo[1..], t.entered)))
  }

  lemma CallerMoves(s: State, a: Action, n: nat)
    requires Caller(n) in s.threads
    ensures Caller(n) in Step(s, a).threads && Moves(s.threads[Caller(n)], Step(s, a).threads[Caller(n)])
  {
    match a
    case RunSettle(g) =>
    case RunSend(g) =>
    case SweepNext(g) =>
    case _ =>
  }

  /** The asks a sweeping goroutine answers for. */
  ghost predicate AnswersFor(t: Thread, entered: set<AskId>) {
    || (t.Sweeping? && t.entered == entered)
    || (t.Settling? && t.purpose.Sweep? && t.purpose.entered == entered)
    || (t.Sending? && t.purpose.Sweep? && t.purpose.entered == entered)
  }

  lemma {:induction false} SweepRemembers(past: seq<Action>, n: nat, entered: set<AskId>, future: seq<Action>)
    requires Caller(n) in Run(past).threads && AnswersFor(Run(past).threads[Caller(n)], entered)
    ensures Caller(n) in Run(past + future).threads && AnswersFor(Run(past + future).threads[Caller(n)], entered)
  {
    if future == [] {
      assert past + future == past;
    } else {
      var before := past + future[..|future| - 1];
      assert (past + future)[..|past + future| - 1] == before;
      SweepRemembers(past, n, entered, future[..|future| - 1]);
      CallerMoves(Run(before), future[|future| - 1], n);
    }
  }

  /** Every answer the broker hands back could really have been given: existing
      keys, one at most where only one may be chosen, and a key or a comment. */
  lemma AnswersAreValid(actions: seq<Action>, id: AskId)
    requires Registrar(id) in Run(actions).threads && Run(actions).threads[Registrar(id)].Returned?
    requires Run(actions).threads[Registrar(id)].result.kind == Answered
    ensures id in Run(actions).shared.asks
    ensures ValidAnswer(Run(actions).shared.asks[id].questions, Run(actions).threads[Registrar(id)].result)
  {
    var s := Run(actions);
    RunKeepsInv(actions);
    assert ThreadOk(s.shared, Registrar(id), s.threads[Registrar(id)]);
    assert AskOk(s.shared.asks[id]);
  }

  lemma SmallListing(order: seq<string>, clicks: seq<string>)
    requires Lists(order, if clicks == [] then {} else {clicks[|clicks| - 1]})
    ensures order == if clicks == [] then [] else [clicks[|clicks| - 1]]
  {
    ListingSize(order, if clicks == [] then {} else {clicks[|clicks| - 1]});
    if clicks != [] {
      assert order[0] in order;
    }
  }

  /** In every reachable state a question shows exactly the keys toggled an odd
      number of times, or the one toggled last when only one may be chosen. */
  lemma SelectionsMeanClicks(actions: seq<Action>, id: AskId, i: nat)
    requires id in Run(actions).shared.asks && i < |Run(actions).shared.asks[id].questions|
    ensures var a := Run(actions).shared.asks[id];
            && |a.listed| == |a.clicks| == |a.questions|
            && Distinct(a.listed[i])
            && (a.questions[i].multiSelect ==>
                  forall key :: key in a.listed[i] <==> Occurrences(a.clicks[i], key) % 2 == 1)
            && (!a.questions[i].multiSelect ==>
                  a.listed[i] == if a.clicks[i] == [] then [] else [a.clicks[i][|a.clicks[i]| - 1]])
  {
    var a := Run(actions).shared.asks[id];
    RunKeepsInv(actions);
    assert AskOk(a);
    ToggleMeaning(a.questions[i], a.clicks[i]);
    assert Lists(a.listed[i], a.selections[i]);
    if !a.questions[i].multiSelect {
      SmallListing(a.listed[i], a.clicks[i]);
    }
  }

  /** A submission reports the selections of the moment it was checked, even if a
      toggle slips in before it settles. */
  lemma SubmitReportsItsCheck(past: seq<Action>, n: nat, id: AskId, nonce: string, operator: string,
                              listed: seq<seq<string>>, future: seq<Action>)
    requires Caller(n) !in Run(past).threads
    requires id in Run(past).shared.asks && ListsAll(listed, Run(past).shared.asks[id].selections)
    requires SubmitVerdict(Run(past).shared, id, nonce, listed).None?
    requires Caller(n) in Run(past + [ClickSubmit(n, id, nonce, operator, listed)] + future).threads
    ensures var t := Run(past + [ClickSubmit(n, id, nonce, operator, listed)] + future).threads[Caller(n)];
            && (t.Settling? || t.Sending? || t.Reported?) && t.id == id
            && t.result == Answer(listed, operator, "")
  {
    var called := past + [ClickSubmit(n, id, nonce, operator, listed)];
    assert called[..|called| - 1] == past;
    ClickRemembers(called, n, id, Answer(listed, operator, ""), future);
  }

  ghost predicate Carries(t: Thread, id: AskId, result: Result) {
    || (t.Settling? && t.purpose.Click? && t.id == id && t.result == result)
    || (t.Sending? && t.purpose.Click? && t.id == id && t.result == result)
    || (t.Reported? && t.id == id && t.result == result)
  }

  lemma {:induction false} ClickRemembers(past: seq<Action>, n: nat, id: AskId, result: Result, future: seq<Action>)
    requires Caller(n) in Run(past).threads && Carries(Run(past).threads[Caller(n)], id, result)
    ensures Caller(n) in Run(past + future).threads && Carries(Run(past + future).threads[Caller(n)], id, result)
  {
    if future == [] {
      assert past + future == past;
    } else {
      var before := past + future[..|future| - 1];
      assert (past + future)[..|past + future| - 1] == before;
      ClickRemembers(past, n, id, result, future[..|future| - 1]);
      CallerMoves(Run(before), future[|future| - 1], n);
    }
  }
}
