/** What a click, a text, a timeout or an invalidation does to a question that is
    still open, and to one that no longer is (internal/ask/broker.go). Every
    statement is about a reachable state and the fields of the ask alone. */
module AskOutcomes {
  import opened Common
  import opened AskModel
  import opened AskProtocol
  import opened Spaces

  /** The ask can still be answered. */
  ghost predicate Open(s: State, id: AskId) {
    id in s.shared.asks && !s.shared.asks[id].settled
  }

  /** The ask was answered, and its retention has not passed. */
  ghost predicate Kept(s: State, id: AskId) {
    id in s.shared.asks && s.shared.asks[id].settled && id in s.shared.pending
  }

  ghost predicate HasNonce(s: State, id: AskId, nonce: string) {
    id in s.shared.asks && s.shared.asks[id].nonce == nonce
  }

  /** Whether `k` of question `i` is selected once `key` of `question` was toggled. */
  ghost predicate SelectedAfter(a: Ask, question: int, key: string, i: nat, k: string)
    requires i < |a.selections| == |a.questions|
  {
    if i != question then k in a.selections[i]
    else if a.questions[i].multiSelect then (k in a.selections[i]) != (k == key)
    else k == key
  }

  ghost predicate Flipped(a: Ask, question: int, key: string, selections: seq<set<string>>) {
    && |selections| == |a.selections| == |a.questions|
    && forall i, k :: 0 <= i < |selections| ==> (k in selections[i] <==> SelectedAfter(a, question, key, i, k))
  }

  /** A listing that a toggle can leave behind, in any order of the sets. */
  ghost predicate ListsFlipped(a: Ask, question: int, key: string, listed: seq<seq<string>>) {
    && |listed| == |a.selections| == |a.questions|
    && (forall i :: 0 <= i < |listed| ==> Distinct(listed[i]))
    && forall i, k :: 0 <= i < |listed| ==> (k in listed[i] <==> SelectedAfter(a, question, key, i, k))
  }

  ghost predicate Toggleable(s: State, id: AskId, nonce: string, question: int, key: string) {
    && Open(s, id) && HasNonce(s, id, nonce)
    && 0 <= question < |s.shared.asks[id].questions|
    && OptionExists(s.shared.asks[id].questions[question], key)
  }

  /** A toggle with the ask's own nonce and an existing key is carried out and
      flips that key alone; any other toggle is refused and changes nothing. */
  lemma ToggleOutcome(actions: seq<Action>, n: nat, id: AskId, nonce: string, question: int, key: string,
                      listed: seq<seq<string>>)
    requires Caller(n) !in Run(actions).threads
    requires Toggleable(Run(actions), id, nonce, question, key) ==>
               ListsFlipped(Run(actions).shared.asks[id], question, key, listed)
    ensures var s := Run(actions);
            var t := Run(actions + [ClickToggle(n, id, nonce, question, key, listed)]);
            && Caller(n) in t.threads && t.threads[Caller(n)].Told?
            && t.threads == s.threads[Caller(n) := t.threads[Caller(n)]]
            && var told := t.threads[Caller(n)].outcome;
               && (told == Toggled <==> Toggleable(s, id, nonce, question, key))
               && (told == AlreadySettled <==> Kept(s, id) && HasNonce(s, id, nonce))
               && (told == Toggled || told == AlreadySettled || told == Stale)
               && (told != Toggled ==> t.shared == s.shared)
               && (told == Toggled ==> OnlyFlipped(s.shared, t.shared, id, question, key))
  {
    RunKeepsInv(actions);
    RunSnoc(actions, ClickToggle(n, id, nonce, question, key, listed));
    ToggleStep(Run(actions), n, id, nonce, question, key, listed);
  }

  /** Only the selections of the ask changed: `key` of `question` was flipped. */
  ghost predicate OnlyFlipped(s: Shared, t: Shared, id: AskId, question: int, key: string) {
    && id in s.asks && id in t.asks
    && var (a, b) := (s.asks[id], t.asks[id]);
       && Flipped(a, question, key, b.selections) && ListsAll(b.listed, b.selections)
       && 0 <= question < |a.clicks| && b.clicks == a.clicks[question := a.clicks[question] + [key]]
       && t == s.(asks := s.asks[id := a.(selections := b.selections, listed := b.listed, clicks := b.clicks)])
  }

  lemma ToggleStep(s: State, n: nat, id: AskId, nonce: string, question: int, key: string, listed: seq<seq<string>>)
    requires Inv(s) && Caller(n) !in s.threads
    requires Toggleable(s, id, nonce, question, key) ==>
               ListsFlipped(s.shared.asks[id], question, key, listed)
    ensures var t := Step(s, ClickToggle(n, id, nonce, question, key, listed));
            && Caller(n) in t.threads && t.threads[Caller(n)].Told?
            && t.threads == s.threads[Caller(n) := t.threads[Caller(n)]]
            && var told := t.threads[Caller(n)].outcome;
               && (told == Toggled <==> Toggleable(s, id, nonce, question, key))
               && (told == AlreadySettled <==> Kept(s, id) && HasNonce(s, id, nonce))
               && (told == Toggled || told == AlreadySettled || told == Stale)
               && (told != Toggled ==> t.shared == s.shared)
               && (told == Toggled ==> OnlyFlipped(s.shared, t.shared, id, question, key))
  {
    if id in s.shared.asks {
      assert AskOk(s.shared.asks[id]);
      if Toggleable(s, id, nonce, question, key) {
        FlippedIsListed(s.shared, id, nonce, question, key, listed);
      }
    }
  }

  lemma FlippedIsListed(s: Shared, id: AskId, nonce: string, question: int, key: string, listed: seq<seq<string>>)
    requires id in s.asks && AskOk(s.asks[id]) && ListsFlipped(s.asks[id], question, key, listed)
    requires ToggleVerdict(s, id, nonce, question, key) == Toggled
    ensures var t := AfterToggle(s, id, nonce, question, key, listed);
            && id in t.asks && ListsAll(listed, t.asks[id].selections)
            && OnlyFlipped(s, t, id, question, key)
  {
  }

  ghost predicate OneQuestion(s: State, id: AskId) {
    id in s.shared.asks && |s.shared.asks[id].questions| == 1 && !s.shared.asks[id].questions[0].multiSelect
  }

  /** A one-click answer settles an open ask exactly if it brings the ask's nonce, the
      ask is one question with one choice, and the key is one of its options. */
  lemma SelectOutcome(actions: seq<Action>, n: nat, id: AskId, nonce: string, key: string, operator: string)
    requires Caller(n) !in Run(actions).threads
    ensures var s := Run(actions);
            var t := Run(actions + [ClickSelect(n, id, nonce, key, operator)]);
            var settling := Settling(id, Result(Answered, [[key]], operator, "", ""), Click);
            && t.shared == s.shared && Caller(n) in t.threads
            && t.threads == s.threads[Caller(n) := t.threads[Caller(n)]]
            && var c := t.threads[Caller(n)];
               && (c == settling <==>
                   Open(s, id) && HasNonce(s, id, nonce) && OneQuestion(s, id)
                   && OptionExists(s.shared.asks[id].questions[0], key))
               && (c == Told(AlreadySettled) <==> Kept(s, id) && HasNonce(s, id, nonce))
               && (c == settling || c == Told(AlreadySettled) || c == Told(Stale))
  {
    RunKeepsInv(actions);
    RunSnoc(actions, ClickSelect(n, id, nonce, key, operator));
  }

  /** A submit settles an open ask exactly if it brings the ask's nonce and some
      question has a key selected; then it carries all selections. */
  lemma SubmitOutcome(actions: seq<Action>, n: nat, id: AskId, nonce: string, operator: string,
                      listed: seq<seq<string>>)
    requires Caller(n) !in Run(actions).threads
    requires id in Run(actions).shared.asks ==> ListsAll(listed, Run(actions).shared.asks[id].selections)
    ensures var s := Run(actions);
            var t := Run(actions + [ClickSubmit(n, id, nonce, operator, listed)]);
            var settling := Settling(id, Result(Answered, listed, operator, "", ""), Click);
            && t.shared == s.shared && Caller(n) in t.threads
            && t.threads == s.threads[Caller(n) := t.threads[Caller(n)]]
            && var c := t.threads[Caller(n)];
               && (c == settling <==>
                   Open(s, id) && HasNonce(s, id, nonce) && AnySelected(s.shared.asks[id]))
               && (c == Told(NeedSelection) <==>
                   Open(s, id) && HasNonce(s, id, nonce) && !AnySelected(s.shared.asks[id]))
               && (c == Told(AlreadySettled) <==> Kept(s, id) && HasNonce(s, id, nonce))
               && (c == settling || c == Told(NeedSelection) || c == Told(AlreadySettled) || c == Told(Stale))
  {
    RunKeepsInv(actions);
    RunSnoc(actions, ClickSubmit(n, id, nonce, operator, listed));
    SubmitStep(Run(actions), n, id, nonce, operator, listed);
  }

  ghost predicate AnySelected(a: Ask) {
    exists i, key :: 0 <= i < |a.selections| && key in a.selections[i]
  }

  lemma SubmitStep(s: State, n: nat, id: AskId, nonce: string, operator: string, listed: seq<seq<string>>)
    requires Inv(s) && Caller(n) !in s.threads
    requires id in s.shared.asks ==> ListsAll(listed, s.shared.asks[id].selections)
    ensures var t := Step(s, ClickSubmit(n, id, nonce, operator, listed));
            var settling := Settling(id, Result(Answered, listed, operator, "", ""), Click);
            && t.shared == s.shared && Caller(n) in t.threads
            && t.threads == s.threads[Caller(n) := t.threads[Caller(n)]]
            && var c := t.threads[Caller(n)];
               && (c == settling <==>
                   Open(s, id) && HasNonce(s, id, nonce) && AnySelected(s.shared.asks[id]))
               && (c == Told(NeedSelection) <==>
                   Open(s, id) && HasNonce(s, id, nonce) && !AnySelected(s.shared.asks[id]))
               && (c == Told(AlreadySettled) <==> Kept(s, id) && HasNonce(s, id, nonce))
               && (c == settling || c == Told(NeedSelection) || c == Told(AlreadySettled) || c == Told(Stale))
  {
    if id in s.shared.asks {
      var a := s.shared.asks[id];
      assert AskOk(a);
      SomethingListed(a, listed);
      forall i | 0 <= i < |listed|
        ensures forall k :: 0 <= k < |listed[i]| ==> OptionExists(a.questions[i], listed[i][k])
      {
        ListedAnswerOk(a, listed, i);
      }
    }
  }

  lemma SomethingListed(a: Ask, listed: seq<seq<string>>)
    requires ListsAll(listed, a.selections)
    ensures AnySelected(a) <==> exists i :: 0 <= i < |listed| && listed[i] != []
  {
    if AnySelected(a) {
      var i, key :| 0 <= i < |a.selections| && key in a.selections[i];
      assert key in listed[i];
    }
    if i :| 0 <= i < |listed| && listed[i] != [] {
      assert listed[i][0] in a.selections[i];
    }
  }

  /** A text settles an open ask exactly if it is not blank, the ask takes free text
      and, when it comes from the card's input, it brings the ask's nonce. */
  lemma TextOutcome(actions: seq<Action>, n: nat, id: AskId, given: Option<string>, operator: string, text: string)
    requires Caller(n) !in Run(actions).threads
    ensures var s := Run(actions);
            var t := Run(actions + [EnterText(n, id, given, operator, text)]);
            var ours := given.None? || HasNonce(s, id, given.value);
            && t.shared == s.shared && Caller(n) in t.threads
            && t.threads == s.threads[Caller(n) := t.threads[Caller(n)]]
            && var c := t.threads[Caller(n)];
               && (c.Settling? <==> Open(s, id) && ours && s.shared.asks[id].freeform && !Blank(text))
               && (c.Settling? ==>
                     && c.id == id && c.purpose == Click
                     && c.result == Result(Answered, c.result.answers, operator, TrimSpace(text), "")
                     && |c.result.answers| == |s.shared.asks[id].questions|
                     && forall i :: 0 <= i < |c.result.answers| ==> c.result.answers[i] == [])
               && (c == Told(NeedInput) <==> Blank(text) && given.Some?)
               && (c == Told(NeedSelection) <==> Blank(text) && given.None?)
               && (c == Told(AlreadySettled) <==> Kept(s, id) && ours && !Blank(text))
               && (c.Settling? || c.Told?)
  {
    RunKeepsInv(actions);
    RunSnoc(actions, EnterText(n, id, given, operator, text));
  }

  // ----- from the click to the answer of `Register` --------------------------

  lemma RunTwo(actions: seq<Action>, a: Action, b: Action)
    ensures Run(actions + [a, b]) == Step(Step(Run(actions), a), b)
  {
    assert actions + [a, b] == (actions + [a]) + [b];
    RunSnoc(actions, a);
    RunSnoc(actions + [a], b);
  }

  lemma RunFour(actions: seq<Action>, a: Action, b: Action, c: Action, d: Action)
    ensures Run(actions + [a, b, c, d]) == Step(Step(Step(Step(Run(actions), a), b), c), d)
  {
    assert actions + [a, b, c, d] == (actions + [a, b]) + [c, d];
    RunTwo(actions, a, b);
    RunTwo(actions + [a, b], c, d);
  }

  /** Whoever settles an open ask undisturbed makes `Register` return the result. */
  lemma SettleDelivers(s: State, g: Goroutine)
    requires Inv(s) && g in s.threads && s.threads[g].Settling? && Open(s, s.threads[g].id)
    requires g != Registrar(s.threads[g].id) ==> s.threads[Registrar(s.threads[g].id)].Waiting?
    requires g == Registrar(s.threads[g].id) ==> s.threads[g].purpose.DispatchFailure?
    ensures var (id, result) := (s.threads[g].id, s.threads[g].result);
            var t := Step(Step(Step(s, RunSettle(g)), RunSend(g)), ReceiveResult(id));
            && Registrar(id) in t.threads && t.threads[Registrar(id)] == Returned(result)
            && id in t.shared.asks && t.shared.asks[id].settled && t.shared.asks[id].result == Some(result)
            && id !in t.shared.timers
            && g in t.threads && (s.threads[g].purpose.Click? ==> t.threads[g] == Reported(id, result, Accepted))
  {
    var id := s.threads[g].id;
    assert AskOk(s.shared.asks[id]) && DeliveryOk(s, id);
    assert ThreadOk(s.shared, g, s.threads[g]);
  }

  /** `Register` of the ask has returned `result`, and its timeout was stopped. */
  ghost predicate ReturnsWith(t: State, id: AskId, result: Result) {
    && Registrar(id) in t.threads && t.threads[Registrar(id)] == Returned(result)
    && id in t.shared.asks && t.shared.asks[id].result == Some(result) && id !in t.shared.timers
  }

  ghost predicate IsAccepted(t: State, n: nat, id: AskId, result: Result) {
    Caller(n) in t.threads && t.threads[Caller(n)] == Reported(id, result, Accepted)
  }

  ghost predicate Waits(s: State, id: AskId) {
    Open(s, id) && Registrar(id) in s.threads && s.threads[Registrar(id)].Waiting?
  }

  /** After `first` the goroutine `g` is about to settle the open ask; nothing disturbs it. */
  lemma UndisturbedSettle(actions: seq<Action>, first: Action, g: Goroutine, id: AskId, result: Result)
    requires var s := Step(Run(actions), first);
             && g in s.threads && s.threads[g].Settling? && s.threads[g].id == id && s.threads[g].result == result
             && Open(s, id) && Registrar(id) in s.threads
             && (g != Registrar(id) ==> s.threads[Registrar(id)].Waiting?)
             && (g == Registrar(id) ==> s.threads[g].purpose.DispatchFailure?)
    ensures var t := Run(actions + [first, RunSettle(g), RunSend(g), ReceiveResult(id)]);
            && ReturnsWith(t, id, result)
            && (g.Caller? && Step(Run(actions), first).threads[g].purpose.Click? ==>
                  IsAccepted(t, g.number, id, result))
  {
    RunKeepsInv(actions);
    StepKeepsInv(Run(actions), first);
    RunFour(actions, first, RunSettle(g), RunSend(g), ReceiveResult(id));
    SettleDelivers(Step(Run(actions), first), g);
  }

  /** One click with the ask's own nonce is accepted, and `Register` returns the key. */
  lemma SelectAnswers(actions: seq<Action>, n: nat, id: AskId, key: string, operator: string)
    requires Caller(n) !in Run(actions).threads && Waits(Run(actions), id) && OneQuestion(Run(actions), id)
    requires OptionExists(Run(actions).shared.asks[id].questions[0], key)
    ensures var t := Run(actions + [ClickSelect(n, id, Run(actions).shared.asks[id].nonce, key, operator),
                                    RunSettle(Caller(n)), RunSend(Caller(n)), ReceiveResult(id)]);
            var result := Result(Answered, [[key]], operator, "", "");
            ReturnsWith(t, id, result) && IsAccepted(t, n, id, result)
  {
    var click := ClickSelect(n, id, Run(actions).shared.asks[id].nonce, key, operator);
    RunSnoc(actions, click);
    SelectOutcome(actions, n, id, click.nonce, key, operator);
    UndisturbedSettle(actions, click, Caller(n), id, Result(Answered, [[key]], operator, "", ""));
  }

  /** A submit with the ask's own nonce and something selected is accepted, and
      `Register` returns the selections. */
  lemma SubmitAnswers(actions: seq<Action>, n: nat, id: AskId, operator: string, listed: seq<seq<string>>)
    requires Caller(n) !in Run(actions).threads && Waits(Run(actions), id)
    requires AnySelected(Run(actions).shared.asks[id])
    requires ListsAll(listed, Run(actions).shared.asks[id].selections)
    ensures var t := Run(actions + [ClickSubmit(n, id, Run(actions).shared.asks[id].nonce, operator, listed),
                                    RunSettle(Caller(n)), RunSend(Caller(n)), ReceiveResult(id)]);
            var result := Result(Answered, listed, operator, "", "");
            ReturnsWith(t, id, result) && IsAccepted(t, n, id, result)
  {
    var click := ClickSubmit(n, id, Run(actions).shared.asks[id].nonce, operator, listed);
    RunSnoc(actions, click);
    SubmitOutcome(actions, n, id, click.nonce, operator, listed);
    UndisturbedSettle(actions, click, Caller(n), id, Result(Answered, listed, operator, "", ""));
  }

  /** A text that is not blank answers a free-text ask with the trimmed text. */
  lemma TextAnswers(actions: seq<Action>, n: nat, id: AskId, given: Option<string>, operator: string, text: string)
    requires Caller(n) !in Run(actions).threads && Waits(Run(actions), id)
    requires Run(actions).shared.asks[id].freeform && !Blank(text)
    requires given.Some? ==> given.value == Run(actions).shared.asks[id].nonce
    ensures var t := Run(actions + [EnterText(n, id, given, operator, text),
                                    RunSettle(Caller(n)), RunSend(Caller(n)), ReceiveResult(id)]);
            var result := Result(Answered, seq(|Run(actions).shared.asks[id].questions|, _ => []), operator,
                                 TrimSpace(text), "");
            ReturnsWith(t, id, result) && IsAccepted(t, n, id, result)
  {
    var click := EnterText(n, id, given, operator, text);
    RunSnoc(actions, click);
    TextOutcome(actions, n, id, given, operator, text);
    var result := Run(actions + [click]).threads[Caller(n)].result;
    assert result.answers == seq(|Run(actions).shared.asks[id].questions|, _ => []);
    UndisturbedSettle(actions, click, Caller(n), id, result);
  }

  /** An armed timeout makes `Register` return that it timed out. */
  lemma TimeoutAnswers(actions: seq<Action>, id: AskId)
    requires Waits(Run(actions), id) && id in Run(actions).shared.timers
    ensures ReturnsWith(Run(actions + [TimeoutFires(id), RunSettle(Timer(id)), RunSend(Timer(id)), ReceiveResult(id)]),
                     id, Result(TimedOut, [], "", "", ""))
  {
    UndisturbedSettle(actions, TimeoutFires(id), Timer(id), id, Result(TimedOut, [], "", "", ""));
  }

  /** `Invalidate` makes `Register` return the reason. */
  lemma InvalidateAnswers(actions: seq<Action>, n: nat, id: AskId, reason: string)
    requires Caller(n) !in Run(actions).threads && Waits(Run(actions), id)
    ensures ReturnsWith(Run(actions + [InvalidateOne(n, id, reason), RunSettle(Caller(n)), RunSend(Caller(n)),
                                    ReceiveResult(id)]),
                     id, Result(Invalidated, [], "", "", reason))
  {
    UndisturbedSettle(actions, InvalidateOne(n, id, reason), Caller(n), id, Result(Invalidated, [], "", "", reason));
  }

  /** A card that could not be sent makes `Register` return the error. */
  lemma FailedDispatchAnswers(actions: seq<Action>, id: AskId, error: string)
    requires Open(Run(actions), id) && Registrar(id) in Run(actions).threads
    requires Run(actions).threads[Registrar(id)].Dispatching?
    ensures ReturnsWith(Run(actions + [DispatchFails(id, error), RunSettle(Registrar(id)), RunSend(Registrar(id)),
                                    ReceiveResult(id)]),
                     id, Result(Invalidated, [], "", "", "card dispatch failed: " + error))
  {
    UndisturbedSettle(actions, DispatchFails(id, error), Registrar(id), id,
                      Result(Invalidated, [], "", "", "card dispatch failed: " + error));
  }

  // ----- a sweep comes to its end ------------------------------------------------

  ghost predicate IsSweeping(s: State, g: Goroutine, reason: string, todo: seq<AskId>) {
    g in s.threads && s.threads[g].Sweeping? && s.threads[g].reason == reason && s.threads[g].todo == todo
  }

  lemma RunThree(actions: seq<Action>, a: Action, b: Action, c: Action)
    ensures Run(actions + [a, b, c]) == Step(Step(Step(Run(actions), a), b), c)
  {
    assert actions + [a, b, c] == (actions + [a, b]) + [c];
    RunTwo(actions, a, b);
    RunSnoc(actions + [a, b], c);
  }

  /** One ask of the list: it is settled now, and was invalidated if it was still open. */
  lemma SweepRound(s: State, g: Goroutine, reason: string, todo: seq<AskId>)
    requires Inv(s) && IsSweeping(s, g, reason, todo) && todo != [] && todo[0] in s.shared.asks
    ensures var t := Step(Step(Step(s, SweepNext(g)), RunSettle(g)), RunSend(g));
            && IsSweeping(t, g, reason, todo[1..])
            && todo[0] in t.shared.asks && t.shared.asks[todo[0]].settled
            && (Open(s, todo[0]) ==> t.shared.asks[todo[0]].result == Some(Result(Invalidated, [], "", "", reason)))
  {
    var chosen := Step(s, SweepNext(g));
    assert AskOk(s.shared.asks[todo[0]]);
    assert chosen.shared == s.shared;
    SweepSettles(chosen, g, todo[0], reason);
  }

  lemma SweepSettles(s: State, g: Goroutine, id: AskId, reason: string)
    requires g in s.threads && s.threads[g].Settling? && s.threads[g].purpose.Sweep?
    requires s.threads[g].id == id && s.threads[g].result == Result(Invalidated, [], "", "", reason)
    requires id in s.shared.asks && (!s.shared.asks[id].settled ==> id in s.shared.pending)
    ensures var t := Step(Step(s, RunSettle(g)), RunSend(g));
            && IsSweeping(t, g, s.threads[g].purpose.reason, s.threads[g].purpose.todo)
            && id in t.shared.asks && t.shared.asks[id].settled
            && (Open(s, id) ==> t.shared.asks[id].result == Some(Result(Invalidated, [], "", "", reason)))
  {
  }

  lemma SweepRoundRuns(actions: seq<Action>, g: Goroutine, reason: string, todo: seq<AskId>)
    requires IsSweeping(Run(actions), g, reason, todo) && todo != [] && todo[0] in Run(actions).shared.asks
    ensures IsSweeping(Run(actions + [SweepNext(g), RunSettle(g), RunSend(g)]), g, reason, todo[1..])
  {
    RunKeepsInv(actions);
    RunThree(actions, SweepNext(g), RunSettle(g), RunSend(g));
    SweepRound(Run(actions), g, reason, todo);
  }

  /** A sweep can always work off its list. */
  lemma {:induction false} SweepCanFinish(actions: seq<Action>, g: Goroutine, reason: string, todo: seq<AskId>)
    returns (more: seq<Action>)
    requires IsSweeping(Run(actions), g, reason, todo)
    requires forall id :: id in todo ==> id in Run(actions).shared.asks
    ensures IsSweeping(Run(actions + more), g, reason, [])
    decreases |todo|
  {
    if todo == [] {
      more := [];
      assert actions + [] == actions;
    } else {
      var round := [SweepNext(g), RunSettle(g), RunSend(g)];
      SweepRoundRuns(actions, g, reason, todo);
      RunGrows(actions, round);
      var rest := SweepCanFinish(actions + round, g, reason, todo[1..]);
      more := round + rest;
      assert actions + more == (actions + round) + rest;
    }
  }

  /** `InvalidateScope` collects the open asks of the scope, in any order, and can settle
      them all: every ask of the scope registered by then is settled in the end. */
  lemma ScopeCanBeInvalidated(actions: seq<Action>, n: nat, scope: string, reason: string, order: seq<AskId>)
    returns (more: seq<Action>)
    requires Caller(n) !in Run(actions).threads
    requires Lists(order, OpenInScope(Run(actions).shared, scope))
    ensures var t := Run(actions + [InvalidateAll(n, scope, reason, order)] + more);
            forall id :: id in Run(actions).shared.asks && Run(actions).shared.asks[id].scope == scope ==>
              id in t.shared.asks && t.shared.asks[id].settled
  {
    var called := actions + [InvalidateAll(n, scope, reason, order)];
    RunSnoc(actions, InvalidateAll(n, scope, reason, order));
    SweepStarts(Run(actions), n, scope, reason, order);
    more := SweepCanFinish(called, Caller(n), reason, order);
    SweepLeavesNothingOpen(actions, n, scope, reason, order, more);
  }

  lemma SweepStarts(s: State, n: nat, scope: string, reason: string, order: seq<AskId>)
    requires Caller(n) !in s.threads && Lists(order, OpenInScope(s.shared, scope))
    ensures var t := Step(s, InvalidateAll(n, scope, reason, order));
            && IsSweeping(t, Caller(n), reason, order) && t.shared == s.shared
            && forall id :: id in order ==> id in s.shared.asks
  {
  }

  // ----- the tables ------------------------------------------------------------

  /** In every reachable state the tables say what the asks say: an open ask is
      pending, a pending one is open or about to be forgotten, and only open asks
      have a timeout armed. */
  lemma TablesMeanAsks(actions: seq<Action>, id: AskId)
    ensures var s := Run(actions);
            && (Open(s, id) ==> id in s.shared.pending)
            && (id in s.shared.pending ==> Open(s, id) || Kept(s, id))
            && (Kept(s, id) <==> id in s.shared.expiring)
            && (id in s.shared.timers ==> Open(s, id))
  {
    RunKeepsInv(actions);
  }

  /** Retention forgets exactly the settled asks, so that no open ask is ever lost. */
  lemma RetentionForgets(actions: seq<Action>, id: AskId)
    ensures var (s, t) := (Run(actions), Run(actions + [RetentionFires(id)]));
            && t.shared.asks == s.shared.asks && t.shared.timers == s.shared.timers && t.threads == s.threads
            && t.shared.pending == (if Kept(s, id) then s.shared.pending - {id} else s.shared.pending)
            && !Kept(t, id)
  {
    RunKeepsInv(actions);
    RunSnoc(actions, RetentionFires(id));
  }

  /** `Register` of valid questions leaves an open ask with nothing selected, its
      timeout armed and the card about to be sent; of others it leaves no trace. */
  lemma RegisterOutcome(actions: seq<Action>, id: AskId, nonce: string, chatId: string, scope: string,
                        questions: seq<Question>, freeform: bool)
    requires id !in Run(actions).shared.asks
    ensures var s := Run(actions);
            var t := Run(actions + [Register(id, nonce, chatId, scope, questions, freeform)]);
            && (!GoodInput(chatId, questions) ==> t == s)
            && (GoodInput(chatId, questions) ==>
                  && t.threads == s.threads[Registrar(id) := Dispatching]
                  && Open(t, id) && t.shared.asks == s.shared.asks[id := t.shared.asks[id]]
                  && t.shared.timers == s.shared.timers + {id} && t.shared.pending == s.shared.pending + {id}
                  && t.shared.expiring == s.shared.expiring
                  && var a := t.shared.asks[id];
                     && a.nonce == nonce && a.scope == scope && a.questions == questions && a.freeform == freeform
                     && !AnySelected(a) && a.listed == seq(|questions|, _ => []) && a.cardMessage == "")
  {
    RunSnoc(actions, Register(id, nonce, chatId, scope, questions, freeform));
    assert EmptySelections(|questions|) == seq(|questions|, _ => []);
  }

  /** Once sent, the card is noted on an ask that is still open, and only there. */
  lemma CardIsNoted(actions: seq<Action>, id: AskId, message: string)
    requires Registrar(id) in Run(actions).threads && Run(actions).threads[Registrar(id)].Dispatching?
    ensures var (s, t) := (Run(actions), Run(actions + [DispatchSucceeds(id, message)]));
            && id in s.shared.asks && t.threads == s.threads[Registrar(id) := Waiting]
            && t.shared == if s.shared.asks[id].settled then s.shared else
                 s.shared.(asks := s.shared.asks[id := s.shared.asks[id].(cardMessage := message)])
  {
    RunKeepsInv(actions);
    RunSnoc(actions, DispatchSucceeds(id, message));
    assert ThreadOk(Run(actions).shared, Registrar(id), Run(actions).threads[Registrar(id)]);
  }

  /** What a sweep collects, and what `PendingCountForScope` counts: the open asks. */
  lemma OpenInScopeMeansOpen(actions: seq<Action>, scope: string, id: AskId)
    ensures id in OpenInScope(Run(actions).shared, scope) <==>
            Open(Run(actions), id) && Run(actions).shared.asks[id].scope == scope
  {
    RunKeepsInv(actions);
  }
}
