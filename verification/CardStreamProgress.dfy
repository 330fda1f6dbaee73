/** That the card pump gets somewhere (internal/card/stream.go): from every reachable
    state `Finish` can come to its end, a stored snapshot can reach the card, and the
    loop waits out its minimum interval and no longer. */
module CardStreamProgress {
  import opened Common
  import opened CardStream

  ghost function RunFrom(s: State, actions: seq<Action>): State
    decreases |actions|
  {
    if actions == [] then s else RunFrom(Step(s, actions[0]), actions[1..])
  }

  lemma RunSnoc(actions: seq<Action>, a: Action)
    ensures Run(actions + [a]) == Step(Run(actions), a)
  {
    assert (actions + [a])[..|actions|] == actions;
  }

  lemma {:induction false} RunOn(past: seq<Action>, more: seq<Action>)
    ensures Run(past + more) == RunFrom(Run(past), more)
    decreases |more|
  {
    if more == [] {
      assert past + more == past;
    } else {
      RunSnoc(past, more[0]);
      RunOn(past + [more[0]], more[1..]);
      assert past + [more[0]] + more[1..] == past + more;
    }
  }

  lemma RunFromCons(s: State, a: Action, rest: seq<Action>)
    ensures RunFrom(s, [a] + rest) == RunFrom(Step(s, a), rest)
  {
    assert ([a] + rest)[1..] == rest;
  }

  // ----- Finish comes to its end ------------------------------------------------

  ghost function LoopRank(l: Loop): nat {
    match l
    case Woken => 4
    case AboutToPush => 3
    case Sending(_) => 2
    case Marking => 2
    case AtSelect => 1
    case Throttled(_) => 1
    case Stopped => 0
  }

  ghost function Rank(s: State): nat {
    match s.finish
    case NotCalled => 12
    case Joining => 7 + LoopRank(s.loop)
    case FinalPush => 6
    case FinalSending(_) => 5
    case FinalMarking => 4
    case Numbering => 3
    case Closing(_) => 2
    case Finished => 0
  }

  /** What the loop does next once `done` is closed. */
  ghost function NextOfLoop(l: Loop): Action {
    match l
    case Woken => ReadClock
    case AboutToPush => LoopTake
    case Sending(_) => LoopReply(true)
    case Marking => LoopMark
    case _ => SeeDone
  }

  ghost function NextOfFinish(s: State): Action {
    match s.finish
    case NotCalled => CallFinish
    case Joining => if s.loop.Stopped? then JoinLoop else NextOfLoop(s.loop)
    case FinalPush => FinalTake
    case FinalSending(_) => FinalReply(true)
    case FinalMarking => FinalMark
    case Numbering => NumberClose
    case _ => CloseReply(true)
  }

  lemma FinishAdvances(s: State)
    requires ControlOk(s) && !s.finish.Finished?
    ensures Rank(Step(s, NextOfFinish(s))) < Rank(s)
    ensures Step(s, NextOfFinish(s)).cell.updates == s.cell.updates
  {
  }

  lemma {:induction false} FinishFrom(s: State) returns (more: seq<Action>)
    requires ControlOk(s)
    ensures RunFrom(s, more).finish.Finished? && RunFrom(s, more).cell.updates == s.cell.updates
    ensures |more| <= Rank(s) && ControlOk(RunFrom(s, more))
    decreases Rank(s)
  {
    if s.finish.Finished? {
      more := [];
    } else {
      var a := NextOfFinish(s);
      FinishAdvances(s);
      StepKeepsControl(s, a);
      var rest := FinishFrom(Step(s, a));
      RunFromCons(s, a, rest);
      more := [a] + rest;
    }
  }

  /** Whatever has happened, `Finish` can still come to its end, within twelve steps, and
      then the closing request has been made. */
  lemma FinishCanComplete(actions: seq<Action>) returns (more: seq<Action>)
    ensures var t := Run(actions + more);
            && t.finish.Finished? && |more| <= 12
            && t.wire != [] && t.wire[|t.wire| - 1].0.Close?
            && t.cell.updates == Run(actions).cell.updates
  {
    RunKeepsInv(actions);
    more := FinishFrom(Run(actions));
    RunOn(actions, more);
  }

  // ----- a stored snapshot reaches the card --------------------------------------

  /** The snapshot `card` waits in the cell, or the loop is sending it; no push failed. */
  ghost predicate OnItsWay(s: State, card: Card) {
    && WakeUpOk(s) && !s.cell.failed && !s.loop.Marking? && !s.loop.Stopped?
    && (s.cell.latest == Some(card)
        || (s.loop.Sending? && s.loop.request.Push? && s.loop.request.card == card && s.cell.latest.None?))
  }

  ghost predicate LastSent(s: State, card: Card) {
    && s.wire != []
    && var (request, ok) := s.wire[|s.wire| - 1];
       ok && request.Push? && request.card == card
  }

  ghost function SendRank(s: State): nat {
    match s.loop
    case Sending(_) => if s.cell.latest.None? then 1 else 8
    case AtSelect => if s.cell.token then 6 else 7
    case Woken => 5
    case Throttled(until) => if s.now < until then 4 else 3
    case AboutToPush => 2
    case _ => 0
  }

  ghost function NextOfSend(s: State): Action {
    match s.loop
    case AtSelect => if s.cell.token then TakeToken else NotifyLoop
    case Woken => ReadClock
    case Throttled(until) => if s.now < until then Tick(until - s.now) else ThrottleEnds
    case AboutToPush => LoopTake
    case _ => LoopReply(true)
  }

  lemma SendAdvances(s: State, card: Card)
    requires ControlOk(s) && OnItsWay(s, card)
    ensures var t := Step(s, NextOfSend(s));
            LastSent(t, card) || (OnItsWay(t, card) && SendRank(t) < SendRank(s))
  {
    StepKeepsWakeUp(s, NextOfSend(s));
  }

  lemma {:induction false} SendFrom(s: State, card: Card) returns (more: seq<Action>)
    requires ControlOk(s) && OnItsWay(s, card)
    ensures LastSent(RunFrom(s, more), card)
    decreases SendRank(s)
  {
    var a := NextOfSend(s);
    SendAdvances(s, card);
    StepKeepsControl(s, a);
    if LastSent(Step(s, a), card) {
      more := [a];
      assert RunFrom(s, [a]) == RunFrom(Step(s, a), []);
    } else {
      var rest := SendFrom(Step(s, a), card);
      RunFromCons(s, a, rest);
      more := [a] + rest;
    }
  }

  /** While the loop runs and no push has failed, the snapshot in the cell can always be
      brought to the card: the loop wakes, waits if it must, and sends it. */
  lemma SnapshotCanArrive(actions: seq<Action>) returns (more: seq<Action>)
    requires Run(actions).cell.latest.Some? && !Run(actions).loop.Stopped? && !Refused(Run(actions).wire)
    ensures LastSent(Run(actions + more), Run(actions).cell.latest.value)
  {
    RunKeepsInv(actions);
    more := SendFrom(Run(actions), Run(actions).cell.latest.value);
    RunOn(actions, more);
  }

  // ----- the minimum interval ----------------------------------------------------

  /** A woken loop pushes at once when nothing was pushed or the last push lies at least
      400 milliseconds back, and otherwise waits exactly until then. */
  lemma WaitIsExact(actions: seq<Action>)
    requires Run(actions).loop.Woken?
    ensures var (s, t) := (Run(actions), Run(actions + [ReadClock]));
            && (t.loop.AboutToPush? <==> s.cell.lastPush.None? || s.now - s.cell.lastPush.value >= 400)
            && (!t.loop.AboutToPush? ==>
                  s.cell.lastPush.Some? && t.loop == Throttled(s.cell.lastPush.value + 400))
  {
    RunSnoc(actions, ReadClock);
  }

  /** The time remembered is that of the last push. */
  lemma LastPushIsLast(actions: seq<Action>)
    requires var s := Run(actions);
             s.wire != [] && s.wire[|s.wire| - 1].0.Push? && !s.loop.Sending?
             && !s.finish.FinalSending? && !s.finish.Closing?
    ensures var s := Run(actions); s.cell.lastPush == Some(s.wire[|s.wire| - 1].0.time)
  {
    RunKeepsInv(actions);
    var s := Run(actions);
    var requests := Issued(s);
    assert requests[|s.wire| - 1] == s.wire[|s.wire| - 1].0;
  }
}
