/** That calls come to an end, and to which (internal/agent/acp.go,
    internal/agent/codex_appserver.go, internal/agent/pi.go): a call on a live process
    is written and gets its response; a refusal means that the process was gone; death,
    a failed write and a timeout are reported as such. */
module RpcProgress {
  import opened Common
  import opened Rpc

  lemma RunSnoc(c: Client, actions: seq<Action>, a: Action)
    ensures Run(c, actions + [a]) == Step(Run(c, actions), a)
  {
    assert (actions + [a])[..|actions|] == actions;
  }

  lemma RunTwo(c: Client, actions: seq<Action>, a: Action, b: Action)
    ensures Run(c, actions + [a, b]) == Step(Step(Run(c, actions), a), b)
  {
    var one := actions + [a];
    assert actions + [a, b] == one + [b];
    RunSnoc(c, actions, a);
    RunSnoc(c, one, b);
  }

  lemma RunThree(c: Client, actions: seq<Action>, a: Action, b: Action, d: Action)
    ensures Run(c, actions + [a, b, d]) == Step(Step(Step(Run(c, actions), a), b), d)
  {
    var two := actions + [a, b];
    assert actions + [a, b, d] == two + [d];
    RunTwo(c, actions, a, b);
    RunSnoc(c, two, d);
  }

  ghost predicate PhaseIs(c: Client, k: nat, phase: Phase) {
    k < |c.calls| && c.calls[k].phase == phase
  }

  ghost predicate Filed(c: Client, k: nat) {
    k < |c.calls| && c.calls[k].id in c.pending && c.pending[c.calls[k].id] == k
  }

  /** A new call on a live process is filed under an id no call had, and is written: none of
      the three clients turns it away. */
  lemma LiveCallIsWritten(kind: Kind, actions: seq<Action>)
    requires !Run(Started(kind), actions).ended
    ensures var (c, d) := (Run(Started(kind), actions),
                           Run(Started(kind), actions + [Begin, Check(|Run(Started(kind), actions).calls|),
                                                         Write(|Run(Started(kind), actions).calls|, true)]));
            var k := |c.calls|;
            && |d.calls| == k + 1 && PhaseIs(d, k, Waiting) && Filed(d, k) && d.calls[k].sent == []
            && d.hand == c.hand && d.ended == c.ended
            && (forall i :: 0 <= i < k ==> d.calls[i] == c.calls[i] && d.calls[i].id != d.calls[k].id)
  {
    var c := Run(Started(kind), actions);
    RunKeepsInv(kind, actions);
    RunThree(Started(kind), actions, Begin, Check(|c.calls|), Write(|c.calls|, true));
    CallIsWritten(c);
  }

  lemma CallIsWritten(c: Client)
    requires Inv(c) && !c.ended
    ensures var k := |c.calls|;
            var d := Step(Step(Step(c, Begin), Check(k)), Write(k, true));
            && |d.calls| == k + 1 && PhaseIs(d, k, Waiting) && Filed(d, k) && d.calls[k].sent == []
            && d.hand == c.hand && d.ended == c.ended
            && (forall i :: 0 <= i < k ==> d.calls[i] == c.calls[i] && d.calls[i].id != d.calls[k].id)
  {
    var begun := Step(c, Begin);
    assert PhaseIs(begun, |c.calls|, Registered(false));
  }

  /** A waiting call whose response comes in returns it, body and all, and no other call
      is touched. */
  lemma ResponseIsReturned(kind: Kind, actions: seq<Action>, k: nat, body: string)
    requires PhaseIs(Run(Started(kind), actions), k, Waiting) && Filed(Run(Started(kind), actions), k)
    requires Run(Started(kind), actions).hand.None?
    ensures var c := Run(Started(kind), actions);
            var r := Response(c.calls[k].id, body);
            var d := Run(Started(kind), actions + [Respond(r), Deliver, Receive(k)]);
            && PhaseIs(d, k, Returned(Answered(r))) && d.calls[k].id == r.id && !Filed(d, k) && d.hand.None?
            && |d.calls| == |c.calls| && forall i :: 0 <= i < |c.calls| && i != k ==> d.calls[i] == c.calls[i]
  {
    var c := Run(Started(kind), actions);
    RunKeepsInv(kind, actions);
    RunThree(Started(kind), actions, Respond(Response(c.calls[k].id, body)), Deliver, Receive(k));
    ResponseComes(c, k, body);
  }

  lemma ResponseComes(c: Client, k: nat, body: string)
    requires Inv(c) && PhaseIs(c, k, Waiting) && Filed(c, k) && c.hand.None?
    ensures var r := Response(c.calls[k].id, body);
            var d := Step(Step(Step(c, Respond(r)), Deliver), Receive(k));
            && PhaseIs(d, k, Returned(Answered(r))) && d.calls[k].id == r.id && !Filed(d, k) && d.hand.None?
            && |d.calls| == |c.calls| && forall i :: 0 <= i < |c.calls| && i != k ==> d.calls[i] == c.calls[i]
  {
    assert CallOk(c, k);
    var sent := Step(Step(c, Respond(Response(c.calls[k].id, body))), Deliver);
    assert sent.calls[k].sent == [Response(c.calls[k].id, body)];
  }

  /** Together: a call on a live process can be made and answered. */
  lemma CallSucceeds(kind: Kind, actions: seq<Action>, body: string) returns (more: seq<Action>)
    requires !Run(Started(kind), actions).ended && Run(Started(kind), actions).hand.None?
    ensures var k := |Run(Started(kind), actions).calls|;
            var d := Run(Started(kind), actions + more);
            k < |d.calls| && d.calls[k].phase == Returned(Answered(Response(d.calls[k].id, body)))
  {
    var k := |Run(Started(kind), actions).calls|;
    var written := actions + [Begin, Check(k), Write(k, true)];
    LiveCallIsWritten(kind, actions);
    ResponseIsReturned(kind, written, k, body);
    var r := Response(Run(Started(kind), written).calls[k].id, body);
    more := [Begin, Check(k), Write(k, true)] + [Respond(r), Deliver, Receive(k)];
    assert actions + more == written + [Respond(r), Deliver, Receive(k)];
  }

  /** The check turns a call away exactly if the process is known to be gone: for ACP by
      now, for the others when the call was filed. */
  lemma CheckIsExact(kind: Kind, actions: seq<Action>, k: nat)
    requires k < |Run(Started(kind), actions).calls| && Run(Started(kind), actions).calls[k].phase.Registered?
    ensures var (c, d) := (Run(Started(kind), actions), Run(Started(kind), actions + [Check(k)]));
            && (PhaseIs(d, k, Failing(Refused)) <==> if kind.Acp? then c.ended else c.calls[k].phase.seenDead)
            && (PhaseIs(d, k, Failing(Refused)) || PhaseIs(d, k, Writing))
            && (c.calls[k].phase.seenDead ==> c.ended)
  {
    RunKeepsInv(kind, actions);
    RunSnoc(Started(kind), actions, Check(k));
    assert CallOk(Run(Started(kind), actions), k);
  }

  /** Once the process is gone a new call comes to nothing: ACP does not even file it, the
      others file, refuse and remove it, and no other entry is touched. */
  lemma DeadCallIsRefused(kind: Kind, actions: seq<Action>)
    requires Run(Started(kind), actions).ended
    ensures var c := Run(Started(kind), actions);
            var d := Run(Started(kind), actions + [Begin, Check(|c.calls|), Drop(|c.calls|)]);
            && d.pending == c.pending
            && (kind.Acp? ==> d.calls == c.calls)
            && (!kind.Acp? ==> PhaseIs(d, |c.calls|, Returned(Refused)))
  {
    var c := Run(Started(kind), actions);
    RunKeepsInv(kind, actions);
    RunThree(Started(kind), actions, Begin, Check(|c.calls|), Drop(|c.calls|));
    CallIsRefused(c);
  }

  lemma CallIsRefused(c: Client)
    requires Inv(c) && c.ended
    ensures var d := Step(Step(Step(c, Begin), Check(|c.calls|)), Drop(|c.calls|));
            && d.pending == c.pending
            && (c.kind.Acp? ==> d.calls == c.calls)
            && (!c.kind.Acp? ==> PhaseIs(d, |c.calls|, Returned(Refused)))
  {
    var begun := Step(c, Begin);
    if !c.kind.Acp? {
      assert PhaseIs(begun, |c.calls|, Registered(true));
      assert begun.calls[|c.calls|].id !in c.pending;
      assert begun.pending - {begun.calls[|c.calls|].id} == c.pending;
    }
  }

  /** Callers learn of the end: from the death of the process, and with Codex before that
      from the end of the run. */
  lemma EndIsNoted(kind: Kind, actions: seq<Action>)
    ensures Run(Started(kind), actions + [Exit]).ended
    ensures Run(Started(kind), actions + [End]).ended <==> kind.Codex? || Run(Started(kind), actions).ended
  {
    RunKeepsInv(kind, actions);
    RunSnoc(Started(kind), actions, Exit);
    RunSnoc(Started(kind), actions, End);
  }

  ghost predicate RefusedOnlyIfEnded(c: Client) {
    forall k :: 0 <= k < |c.calls| && IsRefused(c.calls[k].phase) ==> c.ended
  }

  ghost predicate IsRefused(p: Phase) {
    p == Failing(Refused) || p == Returned(Refused)
  }

  /** A call that was refused was refused because the process was gone. */
  lemma {:induction false} RefusedMeansEnded(kind: Kind, actions: seq<Action>)
    ensures RefusedOnlyIfEnded(Run(Started(kind), actions))
  {
    if actions != [] {
      var front, last := actions[..|actions| - 1], actions[|actions| - 1];
      assert actions == front + [last];
      RefusedMeansEnded(kind, front);
      RunKeepsInv(kind, front);
      RunSnoc(Started(kind), front, last);
      RefusedStep(Run(Started(kind), front), last);
    }
  }

  lemma RefusedStep(c: Client, a: Action)
    requires Inv(c) && RefusedOnlyIfEnded(c)
    ensures RefusedOnlyIfEnded(Step(c, a))
  {
    var d := Step(c, a);
    StepKeepsEnded(c, a);
    forall k | 0 <= k < |d.calls| && IsRefused(d.calls[k].phase) ensures d.ended {
      if k < |c.calls| {
        assert CallOk(c, k);
        assert !IsRefused(c.calls[k].phase) ==> a == Check(k);
      }
    }
  }

  /** How the other calls end: a write that fails, a timeout (none for ACP) and the death of
      the process are reported as what they are, and the entry is gone. */
  lemma FailedWriteIsReported(kind: Kind, actions: seq<Action>, k: nat)
    requires PhaseIs(Run(Started(kind), actions), k, Writing)
    ensures IsOver(Run(Started(kind), actions + [Write(k, false), Drop(k)]), k, WriteFailed)
  {
    RunTwo(Started(kind), actions, Write(k, false), Drop(k));
    GivesUp(Run(Started(kind), actions), Write(k, false), k, WriteFailed);
  }

  lemma TimeoutIsReported(kind: Kind, actions: seq<Action>, k: nat)
    requires PhaseIs(Run(Started(kind), actions), k, Waiting) && !kind.Acp?
    ensures IsOver(Run(Started(kind), actions + [Timeout(k), Drop(k)]), k, TimedOut)
  {
    RunKeepsInv(kind, actions);
    RunTwo(Started(kind), actions, Timeout(k), Drop(k));
    GivesUp(Run(Started(kind), actions), Timeout(k), k, TimedOut);
  }

  lemma GivesUp(c: Client, a: Action, k: nat, outcome: Outcome)
    requires PhaseIs(Step(c, a), k, Failing(outcome))
    ensures IsOver(Step(Step(c, a), Drop(k)), k, outcome)
  {
  }

  lemma DeathIsReported(kind: Kind, actions: seq<Action>, k: nat)
    requires PhaseIs(Run(Started(kind), actions), k, Waiting) && Filed(Run(Started(kind), actions), k)
    ensures IsOver(Run(Started(kind), actions + [Exit, Receive(k)]), k, Died)
  {
    RunKeepsInv(kind, actions);
    RunTwo(Started(kind), actions, Exit, Receive(k));
    DeathComes(Run(Started(kind), actions), k);
  }

  lemma DeathComes(c: Client, k: nat)
    requires Inv(c) && PhaseIs(c, k, Waiting) && Filed(c, k)
    ensures IsOver(Step(Step(c, Exit), Receive(k)), k, Died)
  {
    assert CallOk(c, k);
    var dead := Step(c, Exit);
    assert dead.calls[k] == c.calls[k].(closings := 1);
  }

  ghost predicate IsOver(c: Client, k: nat, outcome: Outcome) {
    PhaseIs(c, k, Returned(outcome)) && !Filed(c, k)
  }
}
