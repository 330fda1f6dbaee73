/** The broker object itself (internal/ask/broker.go): one method per lock-held
    section, updating the asks in place, each proved against its section in AskModel. */
module AskBroker {
  import opened Common
  import opened AskModel
  import opened Spaces

  class InternalAsk {
    const nonce: string
    const scope: string
    const questions: seq<Question>
    const freeform: bool
    var settled: bool
    var result: Option<Result>
    var selections: seq<set<string>>
    var listed: seq<seq<string>>
    var cardMessage: string
    var resolve: seq<Result>            // the one-slot channel `Register` receives from
    ghost var clicks: seq<seq<string>>
    ghost var winner: Option<Goroutine>

    constructor (nonce: string, scope: string, questions: seq<Question>, freeform: bool)
      ensures View() == FreshAsk(nonce, scope, questions, freeform)
      ensures WellShaped()
    {
      this.nonce, this.scope, this.questions, this.freeform := nonce, scope, questions, freeform;
      settled, result, cardMessage, resolve := false, None, "", [];
      selections := seq(|questions|, _ => {});
      listed := EmptySelections(|questions|);
      clicks, winner := seq(|questions|, _ => []), None;
    }

    ghost function View(): Ask
      reads this
    {
      Ask(nonce, scope, questions, freeform, settled, result, selections, listed, cardMessage, resolve, clicks, winner)
    }

    ghost predicate WellShaped()
      reads this
    {
      |selections| == |questions| && |clicks| == |questions|
    }

    method Select(question: nat, key: string, selections: seq<set<string>>, listed: seq<seq<string>>)
      requires WellShaped() && question < |questions| && |selections| == |questions|
      modifies this
      ensures WellShaped()
      ensures View() == old(View()).(selections := selections, listed := listed,
                                     clicks := old(clicks)[question := old(clicks)[question] + [key]])
    {
      this.selections, this.listed := selections, listed;
      clicks := clicks[question := clicks[question] + [key]];
    }

    method NoteCard(message: string)
      modifies this
      ensures WellShaped() == old(WellShaped())
      ensures View() == old(View()).(cardMessage := message)
    {
      cardMessage := message;
    }

    method SetResolve(buffered: seq<Result>)
      modifies this
      ensures WellShaped() == old(WellShaped())
      ensures View() == old(View()).(resolve := buffered)
    {
      resolve := buffered;
    }

    method Finish(result: Result, ghost settler: Goroutine)
      modifies this
      ensures WellShaped() == old(WellShaped())
      ensures View() == old(View()).(settled := true, result := Some(result), winner := Some(settler))
    {
      settled, this.result, winner := true, Some(result), Some(settler);
    }
  }

  class Broker {
    var pending: map<AskId, InternalAsk>
    var timers: set<AskId>       // armed timeouts
    var expiring: set<AskId>     // armed retention timers
    ghost var registered: map<AskId, InternalAsk>

    constructor ()
      ensures Valid() && View() == EMPTY_SHARED && registered == map[]
    {
      pending, registered, timers, expiring := map[], map[], {}, {};
    }

    ghost predicate Valid()
      reads this, registered.Values
    {
      && (forall id :: id in pending ==> id in registered && pending[id] == registered[id])
      && (forall a, b :: a in registered && b in registered && registered[a] == registered[b] ==> a == b)
      && (forall id :: id in registered ==> registered[id].WellShaped())
    }

    ghost function View(): Shared
      reads this, registered.Values
    {
      Shared(map id | id in registered :: registered[id].View(), pending.Keys, timers, expiring)
    }

    /** Only the ask `id` changed, so only its entry of the view did. */
    twostate lemma OneAskChanged(id: AskId)
      requires old(Valid()) && registered == old(registered) && id in registered
      requires forall other :: other in registered && other != id ==> unchanged(registered[other])
      ensures View().asks == old(View()).asks[id := registered[id].View()]
    {
    }

    /** A new ask joined; the others are as they were. */
    twostate lemma OneAskAdded(id: AskId, new ask: InternalAsk)
      requires old(Valid()) && id !in old(registered) && fresh(ask) && ask.WellShaped()
      requires registered == old(registered)[id := ask] && pending == old(pending)[id := ask]
      requires forall other :: other in old(registered) ==> unchanged(old(registered)[other])
      ensures Valid()
      ensures registered.Values <= old(registered.Values) + {ask}
    {
      forall other | other in old(registered)
        ensures registered[other] == old(registered)[other] != ask && registered[other].WellShaped()
      {
        assert registered[other] in old(registered).Values;
      }
    }

    twostate lemma OneAskShown(id: AskId, new ask: InternalAsk)
      requires old(Valid()) && id !in old(registered) && fresh(ask) && ask.WellShaped()
      requires registered == old(registered)[id := ask] && pending == old(pending)[id := ask]
      requires forall other :: other in old(registered) ==> unchanged(old(registered)[other])
      ensures View().asks == old(View()).asks[id := ask.View()]
    {
      ghost var before, after := old(View()).asks, View().asks;
      assert after.Keys == before.Keys + {id};
    }

    /** Section 1 of `Register`. Random ids are taken to be new. */
    method RegisterAsk(id: AskId, nonce: string, scope: string, questions: seq<Question>, freeform: bool)
      requires Valid() && id !in registered
      modifies this
      ensures Valid() && fresh(registered.Values - old(registered.Values))
      ensures View() == Registered(old(View()), id, FreshAsk(nonce, scope, questions, freeform))
    {
      var ask := new InternalAsk(nonce, scope, questions, freeform);
      pending := pending[id := ask];
      timers := timers + {id};
      registered := registered[id := ask];
      OneAskAdded(id, ask);
      OneAskShown(id, ask);
    }

    /** Section 2 of `Register`. */
    method RecordCard(id: AskId, message: string)
      requires Valid()
      modifies registered.Values
      ensures Valid() && View() == CardRecorded(old(View()), id, message)
    {
      if id in pending && !pending[id].settled {
        pending[id].NoteCard(message);
        OneAskChanged(id);
      }
    }

    /** The table holds the ask, and a nonce that is given is the ask's own. */
    ghost predicate IsOurs(id: AskId, nonce: Option<string>)
      reads this, pending.Values
    {
      id in pending && (nonce.None? || pending[id].nonce == nonce.value)
    }

    method CheckOpen(id: AskId, nonce: Option<string>) returns (refused: Option<Outcome>)
      requires Valid()
      ensures refused == Guard(View(), id, nonce)
      ensures refused == None <==> IsOurs(id, nonce) && !pending[id].settled
      ensures refused == Some(AlreadySettled) <==> IsOurs(id, nonce) && pending[id].settled
      ensures refused == Some(Stale) <==> !IsOurs(id, nonce)
    {
      if id !in pending || (nonce.Some? && pending[id].nonce != nonce.value) {
        return Some(Stale);
      }
      if pending[id].settled {
        return Some(AlreadySettled);
      }
      return None;
    }

    /** The map iteration order of Go is arbitrary, so any listing may come out. */
    method MaterializeSelections(selections: seq<set<string>>) returns (listed: seq<seq<string>>)
      ensures ListsAll(listed, selections)
    {
      listed := [];
      for i := 0 to |selections|
        invariant |listed| == i
        invariant forall k :: 0 <= k < i ==> Lists(listed[k], selections[k])
      {
        var keys: seq<string> := [];
        var rest := selections[i];
        while rest != {}
          invariant Distinct(keys)
          invariant forall x :: x in selections[i] <==> x in keys || x in rest
          invariant forall x :: x in keys ==> x !in rest
          decreases rest
        {
          var key :| key in rest;
          keys, rest := keys + [key], rest - {key};
        }
        listed := listed + [keys];
      }
    }

    method Toggle(id: AskId, nonce: string, question: int, key: string) returns (outcome: Outcome)
      requires Valid()
      modifies registered.Values
      ensures Valid()
      ensures outcome == ToggleVerdict(old(View()), id, nonce, question, key)
      ensures outcome != Toggled ==> View() == old(View())
      ensures outcome == Toggled ==>
                && ListsAll(View().asks[id].listed, View().asks[id].selections)
                && View() == AfterToggle(old(View()), id, nonce, question, key, View().asks[id].listed)
    {
      var refused := CheckOpen(id, Some(nonce));
      if refused.Some? {
        return refused.value;
      }
      var ask := pending[id];
      if question < 0 || question >= |ask.questions| {
        return Stale;
      }
      var q := ask.questions[question];
      if !OptionExists(q, key) {
        return Stale;
      }
      var selected := ask.selections[question];
      if q.multiSelect {
        if key in selected {
          selected := selected - {key};
        } else {
          selected := selected + {key};
        }
      } else {
        selected := {key};
      }
      var selections := ask.selections[question := selected];
      var listed := MaterializeSelections(selections);
      ask.Select(question, key, selections, listed);
      OneAskChanged(id);
      return Toggled;
    }

    /** The check of `Select`. */
    method CheckSelect(id: AskId, nonce: string, key: string) returns (refused: Option<Outcome>)
      requires Valid()
      ensures refused == SelectVerdict(View(), id, nonce, key)
    {
      refused := CheckOpen(id, Some(nonce));
      if refused.None? {
        var ask := pending[id];
        if |ask.questions| != 1 || ask.questions[0].multiSelect || !OptionExists(ask.questions[0], key) {
          refused := Some(Stale);
        }
      }
    }

    /** The check of `Submit` without overrides; the answers are a listing of the
        selections at this moment. */
    method CheckSubmit(id: AskId, nonce: string) returns (refused: Option<Outcome>, answers: seq<seq<string>>)
      requires Valid()
      ensures refused == SubmitVerdict(View(), id, nonce, answers)
      ensures Guard(View(), id, Some(nonce)).None? ==> ListsAll(answers, View().asks[id].selections)
    {
      answers := [];
      refused := CheckOpen(id, Some(nonce));
      if refused.Some? {
        return;
      }
      var ask := pending[id];
      answers := MaterializeSelections(ask.selections);
      var any := false;
      var i := 0;
      while i < |answers| && !any
        invariant 0 <= i <= |answers|
        invariant any <==> exists k :: 0 <= k < i && answers[k] != []
      {
        any := |answers[i]| > 0;
        i := i + 1;
      }
      if !any {
        return Some(NeedSelection), answers;
      }
      for j := 0 to |answers|
        invariant j <= |ask.questions|
        invariant forall i, k :: 0 <= i < j && 0 <= k < |answers[i]| ==> OptionExists(ask.questions[i], answers[i][k])
      {
        if j >= |ask.questions| {
          return Some(Stale), answers;
        }
        for k := 0 to |answers[j]|
          invariant forall l :: 0 <= l < k ==> OptionExists(ask.questions[j], answers[j][l])
        {
          if !OptionExists(ask.questions[j], answers[j][k]) {
            return Some(Stale), answers;
          }
        }
      }
    }

    /** The check of `SubmitInput` (nonce given) and `SubmitComment` (no nonce). */
    method CheckText(id: AskId, nonce: Option<string>, text: string) returns (refused: Option<Outcome>)
      requires Valid()
      ensures refused == TextVerdict(View(), id, nonce, text)
    {
      if TrimSpace(text) == "" {
        return Some(if nonce.Some? then NeedInput else NeedSelection);
      }
      refused := CheckOpen(id, nonce);
      if refused.None? && !pending[id].freeform {
        refused := Some(Stale);
      }
    }

    /** The lock-held section of `settle`. */
    method Settle(id: AskId, result: Result, ghost settler: Goroutine) returns (won: bool)
      requires Valid()
      modifies this, registered.Values
      ensures Valid() && registered == old(registered)
      ensures won == Settleable(old(View()), id)
      ensures View() == AfterSettle(old(View()), id, result, settler)
    {
      if id !in pending || pending[id].settled {
        return false;
      }
      var ask := pending[id];
      timers := timers - {id};
      expiring := expiring + {id};
      ask.Finish(result, settler);
      OneAskChanged(id);
      return true;
    }

    /** The send after `settle` released the lock, through the pointer it kept. */
    method Send(ask: InternalAsk, ghost id: AskId, result: Result)
      requires Valid() && id in registered && registered[id] == ask
      modifies registered.Values
      ensures Valid() && View() == AfterSend(old(View()), id, result)
    {
      if |ask.resolve| == 0 {
        ask.SetResolve([result]);
        OneAskChanged(id);
      }
    }

    /** The receive that ends `Register`, when the channel holds something. */
    method Receive(ask: InternalAsk, ghost id: AskId) returns (result: Result)
      requires Valid() && id in registered && registered[id] == ask && |ask.resolve| > 0
      modifies registered.Values
      ensures Valid() && result == old(View()).asks[id].resolve[0]
      ensures View() == AfterReceive(old(View()), id)
    {
      result := ask.resolve[0];
      ask.SetResolve(ask.resolve[1..]);
      OneAskChanged(id);
    }

    /** The retention timer armed by `settle`. */
    method Forget(id: AskId)
      requires Valid()
      modifies this
      ensures Valid() && registered == old(registered)
      ensures View() == AfterRetention(old(View()), id)
    {
      if id in expiring {
        expiring := expiring - {id};
        pending := pending - {id};
      }
    }

    /** The collecting section of `InvalidateScope`. */
    method CollectScope(scope: string) returns (ids: seq<AskId>)
      requires Valid()
      ensures Lists(ids, OpenInScope(View(), scope))
    {
      ids := [];
      var rest := pending.Keys;
      while rest != {}
        invariant rest <= pending.Keys
        invariant Distinct(ids)
        invariant forall x :: x in ids <==> x in OpenInScope(View(), scope) && x !in rest
        decreases rest
      {
        var id :| id in rest;
        rest := rest - {id};
        if !pending[id].settled && pending[id].scope == scope {
          ids := ids + [id];
        }
      }
    }

    /** `PendingCountForScope`: zero exactly when nothing of the scope is open. */
    method PendingCountForScope(scope: string) returns (n: nat)
      requires Valid()
      ensures n == |OpenInScope(View(), scope)|
    {
      n := 0;
      ghost var counted: set<AskId> := {};
      var rest := pending.Keys;
      while rest != {}
        invariant rest <= pending.Keys
        invariant n == |counted|
        invariant forall x :: x in counted <==> x in OpenInScope(View(), scope) && x !in rest
        decreases rest
      {
        var id :| id in rest;
        rest := rest - {id};
        if !pending[id].settled && pending[id].scope == scope {
          n := n + 1;
          counted := counted + {id};
        }
      }
      assert counted == OpenInScope(View(), scope);
    }
  }
}
