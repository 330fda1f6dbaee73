/** The ask broker's data and the effect of each of its lock-held sections
    (internal/ask/broker.go, internal/ask/types.go), as functions on values. */
module AskModel {
  import opened Common
  import opened Spaces

  type AskId = string

  datatype Choice = Choice(key: string, caption: string)
  datatype Question = Question(prompt: string, options: seq<Choice>, multiSelect: bool)

  datatype Kind = Answered | TimedOut | Invalidated
  datatype Result = Result(kind: Kind, answers: seq<seq<string>>, operator: string, comment: string, reason: string)

  datatype Outcome = Accepted | Toggled | Stale | AlreadySettled | NeedSelection | NeedInput

  /** Everything that can call `settle`: the goroutine blocked in `Register`,
      the ask's timeout callback, or any other caller. */
  datatype Goroutine = Registrar(ask: AskId) | Timer(ask: AskId) | Caller(number: nat)

  /** One ask. `clicks` (accepted toggles per question, oldest first) and `winner`
      (who settled it) are history: the code never reads them. */
  datatype Ask = Ask(
    nonce: string, scope: string, questions: seq<Question>, freeform: bool,
    settled: bool, result: Option<Result>,
    selections: seq<set<string>>, listed: seq<seq<string>>,
    cardMessage: string, resolve: seq<Result>,
    clicks: seq<seq<string>>, winner: Option<Goroutine>)

  /** The broker: every ask ever registered, the ones the pending table still
      holds, the armed timeouts and the armed retention timers. */
  datatype Shared = Shared(asks: map<AskId, Ask>, pending: set<AskId>, timers: set<AskId>, expiring: set<AskId>)

  const EMPTY_SHARED := Shared(map[], {}, {}, {})

  // ----- validation ---------------------------------------------------------

  datatype InputError = ChatRequired | QuestionsRequired | EmptyPrompt(q: nat) | NeedsOptions(q: nat)
                      | MissingKey(q: nat) | DuplicateKey(q: nat, key: string)

  ghost predicate GoodQuestion(q: Question) {
    && q.prompt != ""
    && q.options != []
    && (forall i :: 0 <= i < |q.options| ==> q.options[i].key != "")
    && (forall i, j :: 0 <= i < j < |q.options| ==> q.options[i].key != q.options[j].key)
  }

  ghost predicate GoodInput(chatId: string, questions: seq<Question>) {
    chatId != "" && questions != [] && forall i :: 0 <= i < |questions| ==> GoodQuestion(questions[i])
  }

  /** The scan of `validateInput`: accepts exactly the good inputs, and a question
      error names the first bad question. */
  method ValidateInput(chatId: string, questions: seq<Question>) returns (err: Option<InputError>)
    ensures err.None? <==> GoodInput(chatId, questions)
    ensures err == Some(ChatRequired) <==> chatId == ""
    ensures err == Some(QuestionsRequired) <==> chatId != "" && questions == []
    ensures err.Some? && !err.value.ChatRequired? && !err.value.QuestionsRequired? ==>
              && err.value.q < |questions| && !GoodQuestion(questions[err.value.q])
              && forall i :: 0 <= i < err.value.q ==> GoodQuestion(questions[i])
  {
    if chatId == "" {
      return Some(ChatRequired);
    }
    if |questions| == 0 {
      return Some(QuestionsRequired);
    }
    for i := 0 to |questions|
      invariant forall k :: 0 <= k < i ==> GoodQuestion(questions[k])
    {
      var q := questions[i];
      if q.prompt == "" {
        return Some(EmptyPrompt(i));
      }
      if |q.options| < 1 {
        return Some(NeedsOptions(i));
      }
      var seen: set<string> := {};
      for j := 0 to |q.options|
        invariant seen == set k | 0 <= k < j :: q.options[k].key
        invariant forall k :: 0 <= k < j ==> q.options[k].key != ""
        invariant forall k, l :: 0 <= k < l < j ==> q.options[k].key != q.options[l].key
      {
        if q.options[j].key == "" {
          return Some(MissingKey(i));
        }
        if q.options[j].key in seen {
          return Some(DuplicateKey(i, q.options[j].key));
        }
        seen := seen + {q.options[j].key};
      }
    }
    return None;
  }

  // ----- selections ---------------------------------------------------------

  predicate OptionExists(q: Question, key: string) {
    exists i :: 0 <= i < |q.options| && q.options[i].key == key
  }

  /** What one accepted toggle does to a question's selection. */
  function ToggleKey(q: Question, selected: set<string>, key: string): set<string> {
    if q.multiSelect then
      if key in selected then selected - {key} else selected + {key}
    else {key}
  }

  /** The selection left by a sequence of accepted toggles. */
  ghost function AfterClicks(q: Question, clicks: seq<string>): set<string> {
    if clicks == [] then {}
    else ToggleKey(q, AfterClicks(q, clicks[..|clicks| - 1]), clicks[|clicks| - 1])
  }

  /** A multi-select question holds exactly the keys toggled an odd number of
      times, a single-select question the key toggled last. */
  lemma {:induction false} ToggleMeaning(q: Question, clicks: seq<string>)
    ensures q.multiSelect ==> forall key :: key in AfterClicks(q, clicks) <==> Occurrences(clicks, key) % 2 == 1
    ensures !q.multiSelect ==> AfterClicks(q, clicks) == if clicks == [] then {} else {clicks[|clicks| - 1]}
  {
    if clicks != [] {
      ToggleMeaning(q, clicks[..|clicks| - 1]);
    }
  }

  /** Per question: the listing is a duplicate-free listing of the selected set. */
  ghost predicate ListsAll(listed: seq<seq<string>>, selections: seq<set<string>>) {
    |listed| == |selections| && forall i :: 0 <= i < |listed| ==> Lists(listed[i], selections[i])
  }

  function EmptySelections(n: nat): (r: seq<seq<string>>)
    ensures |r| == n && forall i :: 0 <= i < n ==> r[i] == []
  {
    seq(n, _ => [])
  }

  // ----- answers ------------------------------------------------------------

  /** An answer a user can really have given: per question, distinct existing keys,
      at most one when only one may be chosen; and overall at least one key or a
      comment that is not blank. */
  ghost predicate ValidAnswer(questions: seq<Question>, r: Result) {
    && |r.answers| == |questions|
    && (forall i :: 0 <= i < |questions| ==>
          && Distinct(r.answers[i])
          && (forall key :: key in r.answers[i] ==> OptionExists(questions[i], key))
          && (!questions[i].multiSelect ==> |r.answers[i]| <= 1))
    && ((exists i :: 0 <= i < |r.answers| && r.answers[i] != []) || !Blank(r.comment))
  }

  function Answer(answers: seq<seq<string>>, operator: string, comment: string): Result {
    Result(Answered, answers, operator, comment, "")
  }

  const TIMED_OUT_RESULT := Result(TimedOut, [], "", "", "")

  function InvalidatedResult(reason: string): Result {
    Result(Invalidated, [], "", "", reason)
  }

  // ----- lock-held sections -------------------------------------------------

  function FreshAsk(nonce: string, scope: string, questions: seq<Question>, freeform: bool): Ask {
    Ask(nonce, scope, questions, freeform, false, None,
        seq(|questions|, _ => {}), EmptySelections(|questions|), "", [],
        seq(|questions|, _ => []), None)
  }

  /** Section 1 of `Register`: the ask enters the table and its timeout is armed. */
  function Registered(s: Shared, id: AskId, ask: Ask): Shared {
    s.(asks := s.asks[id := ask], pending := s.pending + {id}, timers := s.timers + {id})
  }

  /** Section 2 of `Register`: remember the card unless the ask is already settled. */
  function CardRecorded(s: Shared, id: AskId, message: string): Shared {
    if id in s.pending && id in s.asks && !s.asks[id].settled
    then s.(asks := s.asks[id := s.asks[id].(cardMessage := message)])
    else s
  }

  /** The tests every click starts with; None means the ask is open. */
  function Guard(s: Shared, id: AskId, nonce: Option<string>): Option<Outcome> {
    if id !in s.pending || id !in s.asks then Some(Stale)
    else if nonce.Some? && s.asks[id].nonce != nonce.value then Some(Stale)
    else if s.asks[id].settled then Some(AlreadySettled)
    else None
  }

  function ToggleVerdict(s: Shared, id: AskId, nonce: string, question: int, key: string): Outcome {
    if Guard(s, id, Some(nonce)).Some? then Guard(s, id, Some(nonce)).value
    else if question < 0 || question >= |s.asks[id].questions| then Stale
    else if !OptionExists(s.asks[id].questions[question], key) then Stale
    else Toggled
  }

  /** `Toggle`, given the order in which the sets were listed. */
  function AfterToggle(s: Shared, id: AskId, nonce: string, question: int, key: string,
                       listed: seq<seq<string>>): Shared {
    if ToggleVerdict(s, id, nonce, question, key) != Toggled then s
    else
      var a := s.asks[id];
      if question >= |a.selections| || question >= |a.clicks| then s
      else s.(asks := s.asks[id := a.(
                   selections := a.selections[question :=
                        ToggleKey(a.questions[question], a.selections[question], key)],
                   listed := listed,
                   clicks := a.clicks[question := a.clicks[question] + [key]])])
  }

  /** The check of `Select`; None means it goes on to `settle`. */
  function SelectVerdict(s: Shared, id: AskId, nonce: string, key: string): Option<Outcome> {
    if Guard(s, id, Some(nonce)).Some? then Guard(s, id, Some(nonce))
    else if |s.asks[id].questions| != 1 || s.asks[id].questions[0].multiSelect then Some(Stale)
    else if !OptionExists(s.asks[id].questions[0], key) then Some(Stale)
    else None
  }

  /** The check of `Submit` without overrides, given the listing it took. */
  function SubmitVerdict(s: Shared, id: AskId, nonce: string, listed: seq<seq<string>>): Option<Outcome> {
    if Guard(s, id, Some(nonce)).Some? then Guard(s, id, Some(nonce))
    else if forall i :: 0 <= i < |listed| ==> listed[i] == [] then Some(NeedSelection)
    else if exists i :: 0 <= i < |listed| &&
                 (i >= |s.asks[id].questions| ||
                  exists k :: 0 <= k < |listed[i]| && !OptionExists(s.asks[id].questions[i], listed[i][k]))
    then Some(Stale)
    else None
  }

  /** The check of `SubmitInput` (with nonce) and `SubmitComment` (without). */
  function TextVerdict(s: Shared, id: AskId, nonce: Option<string>, text: string): Option<Outcome> {
    if TrimSpace(text) == "" then Some(if nonce.Some? then NeedInput else NeedSelection)
    else if Guard(s, id, nonce).Some? then Guard(s, id, nonce)
    else if !s.asks[id].freeform then Some(Stale)
    else None
  }

  /** Whether `settle` would win now. */
  predicate Settleable(s: Shared, id: AskId) {
    id in s.pending && id in s.asks && !s.asks[id].settled
  }

  /** The lock-held section of `settle`. */
  function AfterSettle(s: Shared, id: AskId, result: Result, settler: Goroutine): Shared {
    if !Settleable(s, id) then s
    else s.(
        asks := s.asks[id := s.asks[id].(settled := true, result := Some(result), winner := Some(settler))],
        timers := s.timers - {id},
        expiring := s.expiring + {id})
  }

  /** The non-blocking send at the end of `settle`: dropped if the one-slot channel is full. */
  function AfterSend(s: Shared, id: AskId, result: Result): Shared {
    if id in s.asks && s.asks[id].resolve == []
    then s.(asks := s.asks[id := s.asks[id].(resolve := [result])])
    else s
  }

  /** The receive that ends `Register`. */
  function AfterReceive(s: Shared, id: AskId): Shared {
    if id in s.asks && s.asks[id].resolve != []
    then s.(asks := s.asks[id := s.asks[id].(resolve := s.asks[id].resolve[1..])])
    else s
  }

  /** The timeout callback starts running. */
  function AfterTimerFires(s: Shared, id: AskId): Shared {
    s.(timers := s.timers - {id})
  }

  /** The retention timer forgets a settled ask. */
  function AfterRetention(s: Shared, id: AskId): Shared {
    if id in s.expiring then s.(pending := s.pending - {id}, expiring := s.expiring - {id}) else s
  }

  /** The asks `InvalidateScope` collects. */
  function OpenInScope(s: Shared, scope: string): (r: set<AskId>)
  {
    set id | id in s.pending && id in s.asks && !s.asks[id].settled && s.asks[id].scope == scope
  }
}
