/** The streaming-card pump (internal/card/stream.go): a latest-value cell, a
    one-slot wake-up channel, a throttled pusher and a finisher. */
module CardStream {
  import opened Common

  type Card = string   // a rendered snapshot; its content does not matter here

  const THROTTLE := 400   // milliseconds between two pushes of the loop

  /** One request to the card service. `at` (history) numbers the update whose
      snapshot is carried and `byLoop` tells who pushed it; `time` is the moment
      the snapshot was taken. */
  datatype Request =
    | Push(sequence: nat, card: Card, at: nat, time: int, byLoop: bool)
    | Close(sequence: nat)

  /** The fields of `Stream` after a successful `Start`. `updates` (history) lists
      every stored snapshot, `latestAt` the number of the one in the cell. */
  datatype Cell = Cell(
    latest: Option<Card>, latestAt: nat, updates: seq<Card>,
    seqNo: nat, failed: bool, lastPush: Option<int>, token: bool, done: bool)

  const FRESH_CELL := Cell(None, 0, [], 0, false, None, false, false)

  // ----- lock-held sections -------------------------------------------------

  /** `Update`, first half: the snapshot replaces the one in the cell. */
  function Stored(c: Cell, card: Card): Cell {
    c.(latest := Some(card), latestAt := |c.updates|, updates := c.updates + [card])
  }

  /** `Update`, second half: the non-blocking send on the one-slot channel. */
  function Notified(c: Cell): Cell {
    c.(token := true)
  }

  /** How long the loop still has to wait at time `now`. */
  function Wait(c: Cell, now: int): int {
    if c.lastPush.None? then 0 else THROTTLE - (now - c.lastPush.value)
  }

  /** The first section of `push`: None when there is nothing to send. */
  function Taken(c: Cell, now: int, byLoop: bool): (Cell, Option<Request>) {
    if c.failed || c.latest.None? then (c, None)
    else (c.(latest := None, seqNo := c.seqNo + 1, lastPush := Some(now)),
          Some(Push(c.seqNo + 1, c.latest.value, c.latestAt, now, byLoop)))
  }

  /** The object. One lock-held section per method. */
  class Stream {
    var latest: Option<Card>
    var seqNo: nat
    var failed: bool
    var lastPush: Option<int>
    var token: bool      // the one-slot notify channel holds a wake-up
    var done: bool       // the done channel is closed
    ghost var latestAt: nat
    ghost var updates: seq<Card>

    constructor ()
      ensures View() == FRESH_CELL
    {
      latest, latestAt, updates := None, 0, [];
      seqNo, failed, lastPush, token, done := 0, false, None, false, false;
    }

    ghost function View(): Cell
      reads this
    {
      Cell(latest, latestAt, updates, seqNo, failed, lastPush, token, done)
    }

    method Update(card: Card)
      modifies this
      ensures View() == Notified(Stored(old(View()), card))
    {
      Store(card);
      Notify();
    }

    method Store(card: Card)
      modifies this
      ensures View() == Stored(old(View()), card)
    {
      latest := Some(card);
      latestAt, updates := |updates|, updates + [card];
    }

    method Notify()
      modifies this
      ensures View() == Notified(old(View()))
    {
      if !token {
        token := true;
      }
    }

    method TakeSnapshot(now: int, ghost byLoop: bool) returns (taken: Option<(nat, Card)>)
      modifies this
      ensures var (after, request) := Taken(old(View()), now, byLoop);
              && View() == after
              && taken == if request.None? then None else Some((request.value.sequence, request.value.card))
    {
      if failed || latest.None? {
        return None;
      }
      taken := Some((seqNo + 1, latest.value));
      latest := None;
      seqNo := seqNo + 1;
      lastPush := Some(now);
    }

    method MarkFailed()
      modifies this
      ensures View() == old(View()).(failed := true)
    {
      failed := true;
    }

    /** `Finish`, its first statement and its numbering of the closing request. */
    method CloseDone()
      modifies this
      ensures View() == old(View()).(done := true)
    {
      done := true;
    }

    method NextSequence() returns (sequence: nat)
      modifies this
      ensures View() == old(View()).(seqNo := old(seqNo) + 1) && sequence == old(seqNo) + 1
    {
      seqNo := seqNo + 1;
      sequence := seqNo;
    }
  }

  // ----- the protocol -------------------------------------------------------

  /** Where the background loop stands. */
  datatype Loop =
    | AtSelect                    // waiting for a wake-up or for `done`
    | Woken                       // took the wake-up, about to read the clock
    | Throttled(until: int)       // waiting out the minimum interval
    | AboutToPush
    | Sending(request: Request)   // request in flight, lock released
    | Marking                     // the request failed, about to record it
    | Stopped

  /** Where the call of `Finish` stands. */
  datatype Finish =
    | NotCalled
    | Joining                     // `done` closed, waiting for the loop to end
    | FinalPush
    | FinalSending(request: Request)
    | FinalMarking
    | Numbering
    | Closing(sequence: nat)      // closing request in flight
    | Finished

  /** What `Finish`'s own push found (history): how many updates had been stored,
      and whether a snapshot was left behind because an earlier push had failed. */
  datatype Final = Final(count: nat, stuck: bool)

  /** `wire`: the requests made so far with their success; `notifying`: updaters
      between the two halves of `Update`. */
  datatype State = State(
    cell: Cell, loop: Loop, finish: Finish, now: int, notifying: nat,
    wire: seq<(Request, bool)>, atFinal: Option<Final>)

  const START := State(FRESH_CELL, AtSelect, NotCalled, 0, 0, [], None)

  datatype Action =
    | StoreSnapshot(card: Card)
    | NotifyLoop
    | Tick(elapsed: nat)
    | SeeDone           // the loop's select, or its throttle wait, sees `done`
    | TakeToken
    | ReadClock
    | ThrottleEnds
    | LoopTake
    | LoopReply(ok: bool)
    | LoopMark
    | CallFinish
    | JoinLoop
    | FinalTake
    | FinalReply(ok: bool)
    | FinalMark
    | NumberClose
    | CloseReply(ok: bool)

  function Step(s: State, a: Action): State {
    match a
    case StoreSnapshot(card) => s.(cell := Stored(s.cell, card), notifying := s.notifying + 1)
    case NotifyLoop => if s.notifying == 0 then s else s.(cell := Notified(s.cell), notifying := s.notifying - 1)
    case Tick(elapsed) => s.(now := s.now + elapsed)
    case SeeDone => if s.cell.done && (s.loop.AtSelect? || s.loop.Throttled?) then s.(loop := Stopped) else s
    case TakeToken =>
      if s.loop.AtSelect? && s.cell.token then s.(cell := s.cell.(token := false), loop := Woken) else s
    case ReadClock =>
      if !s.loop.Woken? then s
      else s.(loop := if Wait(s.cell, s.now) > 0 then Throttled(s.now + Wait(s.cell, s.now)) else AboutToPush)
    case ThrottleEnds => if s.loop.Throttled? && s.now >= s.loop.until then s.(loop := AboutToPush) else s
    case LoopTake =>
      if !s.loop.AboutToPush? then s
      else
        var (cell, request) := Taken(s.cell, s.now, true);
        s.(cell := cell, loop := if request.None? then AtSelect else Sending(request.value))
    case LoopReply(ok) =>
      if !s.loop.Sending? then s
      else s.(wire := s.wire + [(s.loop.request, ok)], loop := if ok then AtSelect else Marking)
    case LoopMark => if s.loop.Marking? then s.(cell := s.cell.(failed := true), loop := AtSelect) else s
    case CallFinish => if s.finish.NotCalled? then s.(cell := s.cell.(done := true), finish := Joining) else s
    case JoinLoop => if s.finish.Joining? && s.loop.Stopped? then s.(finish := FinalPush) else s
    case FinalTake =>
      if !s.finish.FinalPush? then s
      else
        var (cell, request) := Taken(s.cell, s.now, false);
        s.(cell := cell, finish := if request.None? then Numbering else FinalSending(request.value),
           atFinal := Some(Final(|s.cell.updates|, s.cell.failed && s.cell.latest.Some?)))
    case FinalReply(ok) =>
      if !s.finish.FinalSending? then s
      else s.(wire := s.wire + [(s.finish.request, ok)], finish := if ok then Numbering else FinalMarking)
    case FinalMark => if s.finish.FinalMarking? then s.(cell := s.cell.(failed := true), finish := Numbering) else s
    case NumberClose =>
      if s.finish.Numbering?
      then s.(cell := s.cell.(seqNo := s.cell.seqNo + 1), finish := Closing(s.cell.seqNo + 1))
      else s
    case CloseReply(ok) =>
      if s.finish.Closing? then s.(wire := s.wire + [(Request.Close(s.finish.sequence), ok)], finish := Finished) else s
  }

  function Run(actions: seq<Action>): State {
    if actions == [] then START else Step(Run(actions[..|actions| - 1]), actions[|actions| - 1])
  }

  // ----- the invariant ------------------------------------------------------

  /** The requests made, without their success. */
  function Requests(wire: seq<(Request, bool)>): seq<Request> {
    seq(|wire|, i requires 0 <= i < |wire| => wire[i].0)
  }

  /** Every request that left the lock, in order, including the one in flight. */
  function Issued(s: State): seq<Request> {
    Requests(s.wire) +
    if s.loop.Sending? then [s.loop.request]
    else match s.finish
      case FinalSending(request) => [request]
      case Closing(sequence) => [Request.Close(sequence)]
      case _ => []
  }

  /** Number of the last update taken for sending, -1 if none. */
  function LastTaken(requests: seq<Request>): int {
    if requests == [] then -1
    else if requests[|requests| - 1].Push? then requests[|requests| - 1].at
    else LastTaken(requests[..|requests| - 1])
  }

  /** The requests, in the order issued, are numbered 1, 2, 3, ...; they carry
      ever later updates; the closing one comes last; and the loop keeps its distance. */
  ghost predicate RequestsOk(requests: seq<Request>, updates: seq<Card>) {
    && (forall i :: 0 <= i < |requests| ==> requests[i].sequence == i + 1)
    && (forall i :: 0 <= i < |requests| && requests[i].Push? ==>
          requests[i].at < |updates| && requests[i].card == updates[requests[i].at])
    && (forall i, j :: 0 <= i < j < |requests| && requests[j].Push? ==>
          requests[i].Push? && requests[i].at < requests[j].at)
    && (forall i :: 0 < i < |requests| && requests[i].Push? && requests[i].byLoop && requests[i - 1].Push? ==>
          requests[i].time - requests[i - 1].time >= THROTTLE)
  }

  /** What a push taken now would follow. */
  ghost predicate CellOk(c: Cell, requests: seq<Request>) {
    && c.seqNo == |requests|
    && LastTaken(requests) < |c.updates|
    && (c.latest.Some? ==>
          && c.updates != [] && c.latestAt == |c.updates| - 1 && c.latest == Some(c.updates[c.latestAt])
          && LastTaken(requests) < c.latestAt)
    && (c.latest.None? ==> LastTaken(requests) == |c.updates| - 1)
    && (forall i :: 0 <= i < |requests| && requests[i].Push? ==>
          c.lastPush.Some? && requests[i].at <= LastTaken(requests)
          && (i == |requests| - 1 ==> requests[i].time == c.lastPush.value))
  }

  /** The loop, the finisher and the flags agree. */
  ghost predicate ControlOk(s: State) {
    && (s.cell.done <==> !s.finish.NotCalled?)
    && (s.loop.Stopped? ==> s.cell.done)
    && (!s.finish.NotCalled? && !s.finish.Joining? ==> s.loop.Stopped?)
    && (s.atFinal.Some? <==> !s.finish.NotCalled? && !s.finish.Joining? && !s.finish.FinalPush?)
    && (s.loop.Throttled? ==> s.cell.lastPush.Some? && s.loop.until == s.cell.lastPush.value + THROTTLE)
    && (s.loop.AboutToPush? && s.cell.lastPush.Some? ==> s.now - s.cell.lastPush.value >= THROTTLE)
    && (s.loop.Sending? ==> s.loop.request.Push?)
    && (s.finish.FinalSending? ==> s.finish.request.Push?)
    && (forall i :: 0 <= i < |s.wire| && s.wire[i].0.Close? ==> s.finish.Finished? && i == |s.wire| - 1)
    && (s.finish.Finished? ==> s.wire != [] && s.wire[|s.wire| - 1].0.Close?)
  }

  /** Nothing stored is forgotten while pushes succeed. */
  ghost predicate WakeUpOk(s: State) {
    s.cell.latest.Some? && !s.cell.failed && !s.loop.Stopped? ==>
      s.cell.token || s.notifying > 0 || s.loop.Woken? || s.loop.Throttled? || s.loop.AboutToPush?
  }

  ghost predicate Alarmed(s: State) {
    s.cell.failed || s.loop.Marking? || s.finish.FinalMarking?
  }

  /** Some push failed. */
  ghost predicate Refused(wire: seq<(Request, bool)>) {
    exists i :: 0 <= i < |wire| && wire[i].0.Push? && !wire[i].1
  }

  /** A failed push is remembered and is the last one; without failure none is. */
  ghost predicate FailureOk(s: State) {
    && (Alarmed(s) <==> Refused(s.wire))
    && (Alarmed(s) ==> !s.loop.Sending? && !s.finish.FinalSending?)
    && (s.loop.Marking? || s.finish.FinalMarking? ==> !s.cell.failed)
  }

  ghost predicate FinalOk(s: State) {
    s.atFinal.Some? ==>
      && s.atFinal.value.count <= |s.cell.updates|
      && LastTaken(Issued(s)) < s.atFinal.value.count
      && (!s.atFinal.value.stuck <==> LastTaken(Issued(s)) == s.atFinal.value.count - 1)
  }

  ghost predicate Inv(s: State) {
    && RequestsOk(Issued(s), s.cell.updates)
    && CellOk(s.cell, Issued(s))
    && ControlOk(s)
    && WakeUpOk(s)
    && FailureOk(s)
    && FinalOk(s)
  }

  lemma {:induction false} LastTakenSnoc(requests: seq<Request>, r: Request)
    ensures LastTaken(requests + [r]) == if r.Push? then r.at else LastTaken(requests)
  {
    assert (requests + [r])[..|requests|] == requests;
  }

  lemma IssuedAfter(s: State, a: Action)
    requires ControlOk(s)
    ensures var t := Step(s, a);
            match a
            case LoopTake =>
              Issued(t) == Issued(s) + if s.loop.AboutToPush? && t.loop.Sending? then [t.loop.request] else []
            case FinalTake =>
              Issued(t) == Issued(s) + if s.finish.FinalPush? && t.finish.FinalSending? then [t.finish.request] else []
            case NumberClose =>
              Issued(t) == Issued(s) + if s.finish.Numbering? then [Request.Close(s.cell.seqNo + 1)] else []
            case _ => Issued(t) == Issued(s)
  {
  }

  lemma StepKeepsControl(s: State, a: Action)
    requires ControlOk(s)
    ensures ControlOk(Step(s, a))
  {
  }

  lemma StepKeepsWakeUp(s: State, a: Action)
    requires ControlOk(s) && WakeUpOk(s)
    ensures WakeUpOk(Step(s, a))
  {
  }

  lemma StepKeepsFailure(s: State, a: Action)
    requires ControlOk(s) && FailureOk(s)
    ensures FailureOk(Step(s, a))
  {
    var t := Step(s, a);
    if t.wire != s.wire {
      assert forall i :: 0 <= i < |s.wire| ==> t.wire[i] == s.wire[i];
      assert Refused(t.wire) <==> Refused(s.wire) || (t.wire[|s.wire|].0.Push? && !t.wire[|s.wire|].1);
    }
  }

  /** A request leaves the lock. */
  lemma PushKeepsRequests(c: Cell, requests: seq<Request>, now: int, byLoop: bool)
    requires RequestsOk(requests, c.updates) && CellOk(c, requests)
    requires forall i :: 0 <= i < |requests| ==> requests[i].Push?
    requires byLoop && c.lastPush.Some? ==> now - c.lastPush.value >= THROTTLE
    requires Taken(c, now, byLoop).1.Some?
    ensures var (after, request) := Taken(c, now, byLoop);
            RequestsOk(requests + [request.value], after.updates) && CellOk(after, requests + [request.value])
  {
    LastTakenSnoc(requests, Taken(c, now, byLoop).1.value);
  }

  lemma CloseKeepsRequests(c: Cell, requests: seq<Request>)
    requires RequestsOk(requests, c.updates) && CellOk(c, requests)
    ensures var after := c.(seqNo := c.seqNo + 1);
            RequestsOk(requests + [Request.Close(c.seqNo + 1)], c.updates)
            && CellOk(after, requests + [Request.Close(c.seqNo + 1)])
  {
    LastTakenSnoc(requests, Request.Close(c.seqNo + 1));
  }

  /** Until the closing request is numbered only pushes have been issued. */
  lemma NoCloseYet(s: State)
    requires ControlOk(s) && !s.finish.Closing? && !s.finish.Finished?
    ensures forall i :: 0 <= i < |Issued(s)| ==> Issued(s)[i].Push?
  {
  }

  /** A snapshot is stored. */
  lemma StoreKeepsRequests(c: Cell, requests: seq<Request>, card: Card)
    requires RequestsOk(requests, c.updates) && CellOk(c, requests)
    ensures RequestsOk(requests, Stored(c, card).updates) && CellOk(Stored(c, card), requests)
  {
  }

  lemma LoopTakeKeepsRequests(s: State)
    requires Inv(s) && s.loop.AboutToPush?
    ensures var t := Step(s, LoopTake);
            RequestsOk(Issued(t), t.cell.updates) && CellOk(t.cell, Issued(t))
  {
    IssuedAfter(s, LoopTake);
    if Taken(s.cell, s.now, true).1.Some? {
      NoCloseYet(s);
      PushKeepsRequests(s.cell, Issued(s), s.now, true);
    }
  }

  lemma FinalTakeKeepsRequests(s: State)
    requires Inv(s) && s.finish.FinalPush?
    ensures var t := Step(s, FinalTake);
            RequestsOk(Issued(t), t.cell.updates) && CellOk(t.cell, Issued(t))
  {
    IssuedAfter(s, FinalTake);
    if Taken(s.cell, s.now, false).1.Some? {
      NoCloseYet(s);
      PushKeepsRequests(s.cell, Issued(s), s.now, false);
    }
  }

  lemma StepKeepsRequests(s: State, a: Action)
    requires Inv(s)
    ensures var t := Step(s, a);
            RequestsOk(Issued(t), t.cell.updates) && CellOk(t.cell, Issued(t))
  {
    if a.StoreSnapshot? {
      StoreKeepsRequests(s.cell, Issued(s), a.card);
      IssuedAfter(s, a);
    } else if a.LoopTake? && s.loop.AboutToPush? {
      LoopTakeKeepsRequests(s);
    } else if a.FinalTake? && s.finish.FinalPush? {
      FinalTakeKeepsRequests(s);
    } else if a.NumberClose? && s.finish.Numbering? {
      IssuedAfter(s, a);
      CloseKeepsRequests(s.cell, Issued(s));
    } else {
      QuietKeepsRequests(s, a);
    }
  }

  /** A step that neither stores a snapshot nor issues a request. */
  lemma QuietKeepsRequests(s: State, a: Action)
    requires Inv(s) && !a.StoreSnapshot?
    requires !(a.LoopTake? && s.loop.AboutToPush?) && !(a.FinalTake? && s.finish.FinalPush?)
    requires !(a.NumberClose? && s.finish.Numbering?)
    ensures var t := Step(s, a);
            RequestsOk(Issued(t), t.cell.updates) && CellOk(t.cell, Issued(t))
  {
    IssuedAfter(s, a);
    OnlyFlags(s, a);
    SameCell(s.cell, Step(s, a).cell, Issued(s));
  }

  lemma OnlyFlags(s: State, a: Action)
    requires !a.StoreSnapshot?
    requires !(a.LoopTake? && s.loop.AboutToPush?) && !(a.FinalTake? && s.finish.FinalPush?)
    requires !(a.NumberClose? && s.finish.Numbering?)
    ensures var c, d := s.cell, Step(s, a).cell;
            d == c.(failed := d.failed, token := d.token, done := d.done)
  {
  }

  /** The flags of the cell do not matter to the requests. */
  lemma SameCell(c: Cell, d: Cell, requests: seq<Request>)
    requires RequestsOk(requests, c.updates) && CellOk(c, requests)
    requires d == c.(failed := d.failed, token := d.token, done := d.done)
    ensures RequestsOk(requests, d.updates) && CellOk(d, requests)
  {
  }

  lemma StepKeepsFinal(s: State, a: Action)
    requires Inv(s)
    ensures FinalOk(Step(s, a))
  {
    IssuedAfter(s, a);
    var t := Step(s, a);
    match a
    case LoopTake =>
    case FinalTake =>
      if s.finish.FinalPush? && t.finish.FinalSending? {
        LastTakenSnoc(Issued(s), t.finish.request);
      }
    case NumberClose =>
      if s.finish.Numbering? {
        LastTakenSnoc(Issued(s), Request.Close(s.cell.seqNo + 1));
      }
    case _ =>
  }

  lemma StepKeepsInv(s: State, a: Action)
    requires Inv(s)
    ensures Inv(Step(s, a))
  {
    StepKeepsRequests(s, a);
    StepKeepsControl(s, a);
    StepKeepsWakeUp(s, a);
    StepKeepsFailure(s, a);
    StepKeepsFinal(s, a);
  }

  lemma {:induction false} RunKeepsInv(actions: seq<Action>)
    ensures Inv(Run(actions))
  {
    if actions == [] {
      assert Issued(START) == [];
    } else {
      RunKeepsInv(actions[..|actions| - 1]);
      StepKeepsInv(Run(actions[..|actions| - 1]), actions[|actions| - 1]);
    }
  }

  // ----- main results -------------------------------------------------------

  /** On the wire the sequence numbers are 1, 2, 3, ..., the closing request has
      the largest one, and it is only made when nothing else can follow. */
  lemma {:induction false} StrictSequence(actions: seq<Action>)
    ensures var s := Run(actions);
            && (forall i :: 0 <= i < |s.wire| ==> s.wire[i].0.sequence == i + 1)
            && (forall i :: 0 <= i < |s.wire| && s.wire[i].0.Close? ==> i == |s.wire| - 1 && s.finish.Finished?)
            && (s.finish.Finished? ==> s.wire != [] && s.wire[|s.wire| - 1].0.Close?)
  {
    RunKeepsInv(actions);
    var s := Run(actions);
    assert forall i :: 0 <= i < |s.wire| ==> Issued(s)[i] == s.wire[i].0;
  }

  /** The snapshots sent are updates, each at most once and in the order stored. */
  lemma SentInOrder(actions: seq<Action>)
    ensures var s := Run(actions);
            && (forall i :: 0 <= i < |s.wire| && s.wire[i].0.Push? ==>
                  s.wire[i].0.at < |s.cell.updates| && s.wire[i].0.card == s.cell.updates[s.wire[i].0.at])
            && (forall i, j :: 0 <= i < j < |s.wire| && s.wire[j].0.Push? ==>
                  s.wire[i].0.Push? && s.wire[i].0.at < s.wire[j].0.at)
  {
    RunKeepsInv(actions);
    var s := Run(actions);
    assert forall i :: 0 <= i < |s.wire| ==> Issued(s)[i] == s.wire[i].0;
  }

  /** While no push has failed and the loop lives, a stored snapshot is never
      forgotten: a wake-up is waiting, an updater is about to send one, or the
      loop has taken one and will push. */
  lemma NoLostWakeUp(actions: seq<Action>)
    requires Run(actions).cell.latest.Some? && !Run(actions).loop.Stopped?
    requires !Refused(Run(actions).wire)
    ensures var s := Run(actions);
            s.cell.token || s.notifying > 0 || s.loop.Woken? || s.loop.Throttled? || s.loop.AboutToPush?
  {
    RunKeepsInv(actions);
  }

  /** After a failed push nothing is pushed any more. */
  lemma NoPushAfterFailure(actions: seq<Action>, i: nat, j: nat)
    requires i < j < |Run(actions).wire| && Run(actions).wire[i].0.Push? && !Run(actions).wire[i].1
    ensures Run(actions).wire[j].0.Close?
  {
    FailureIsLast(actions, i);
  }

  lemma {:induction false} FailureIsLast(actions: seq<Action>, i: nat)
    requires i < |Run(actions).wire| && Run(actions).wire[i].0.Push? && !Run(actions).wire[i].1
    ensures forall j :: i < j < |Run(actions).wire| ==> Run(actions).wire[j].0.Close?
    decreases |actions|
  {
    var before := Run(actions[..|actions| - 1]);
    RunKeepsInv(actions[..|actions| - 1]);
    WireGrows(before, actions[|actions| - 1]);
    if i < |before.wire| {
      FailureIsLast(actions[..|actions| - 1], i);
    }
  }

  /** A step records at most one request, and none but the closing one after a failure. */
  lemma WireGrows(s: State, a: Action)
    requires Inv(s)
    ensures var t := Step(s, a);
            && |s.wire| <= |t.wire| <= |s.wire| + 1
            && (forall i :: 0 <= i < |s.wire| ==> t.wire[i] == s.wire[i])
            && (|t.wire| > |s.wire| && Refused(s.wire) ==> t.wire[|s.wire|].0.Close?)
  {
  }

  /** When `Finish` has made its own push, the last snapshot sent is the last one
      stored before that push, unless that one was held back by an earlier failure:
      exactly then it is never sent. Later updates are never sent either. */
  lemma LastWrite(actions: seq<Action>)
    requires var s := Run(actions); s.finish.Numbering? || s.finish.Closing? || s.finish.Finished?
    ensures var s := Run(actions);
            && s.atFinal.Some?
            && var last := LastTaken(Requests(s.wire));
               && (last == s.atFinal.value.count - 1 <==> !s.atFinal.value.stuck)
               && last < s.atFinal.value.count
  {
    RunKeepsInv(actions);
    var s := Run(actions);
    var sent := Requests(s.wire);
    if s.finish.Closing? {
      assert Issued(s) == sent + [Request.Close(s.finish.sequence)];
      LastTakenSnoc(sent, Request.Close(s.finish.sequence));
    } else {
      assert Issued(s) == sent;
    }
  }

  /** A snapshot is held back only if a push failed before. */
  lemma {:induction false} StuckMeansFailure(actions: seq<Action>)
    requires Run(actions).atFinal.Some? && Run(actions).atFinal.value.stuck
    ensures Refused(Run(actions).wire)
  {
    var before, a := Run(actions[..|actions| - 1]), actions[|actions| - 1];
    RunKeepsInv(actions[..|actions| - 1]);
    if before.atFinal.Some? && before.atFinal.value.stuck {
      StuckMeansFailure(actions[..|actions| - 1]);
    }
    StepLeavesStuck(before, a);
  }

  lemma StepLeavesStuck(s: State, a: Action)
    requires Inv(s) && (s.atFinal.Some? && s.atFinal.value.stuck ==> Refused(s.wire))
    ensures var t := Step(s, a); t.atFinal.Some? && t.atFinal.value.stuck ==> Refused(t.wire)
  {
    WireGrows(s, a);
    RefusedStays(s.wire, Step(s, a).wire);
    if a.FinalTake? {
      assert Step(s, a).wire == s.wire;
    }
  }

  lemma RefusedStays(wire: seq<(Request, bool)>, more: seq<(Request, bool)>)
    requires |wire| <= |more| && forall i :: 0 <= i < |wire| ==> more[i] == wire[i]
    ensures Refused(wire) ==> Refused(more)
  {
    if Refused(wire) {
      var i :| 0 <= i < |wire| && wire[i].0.Push? && !wire[i].1;
      assert more[i] == wire[i];
    }
  }

  /** Delivery, exactly: when `Finish` has made its own push, the last update stored before
      that push was accepted by the card service if and only if no push failed. */
  lemma LastUpdateDelivered(actions: seq<Action>)
    requires var s := Run(actions); s.finish.Numbering? || s.finish.Closing? || s.finish.Finished?
    ensures var s := Run(actions);
            && s.atFinal.Some?
            && (s.atFinal.value.count > 0 ==> (Delivered(s.wire, s.atFinal.value.count - 1) <==> !Refused(s.wire)))
  {
    var s := Run(actions);
    LastWrite(actions);
    SentInOrder(actions);
    if s.atFinal.value.count > 0 {
      if Refused(s.wire) {
        RefusalStopsDelivery(actions);
      } else {
        if s.atFinal.value.stuck {
          StuckMeansFailure(actions);
        }
        LastTakenPushed(Requests(s.wire));
      }
    }
  }

  /** A refused push is the last one, so nothing it or a later push should carry arrives. */
  lemma RefusalStopsDelivery(actions: seq<Action>)
    requires var s := Run(actions); s.finish.Numbering? || s.finish.Closing? || s.finish.Finished?
    requires Refused(Run(actions).wire)
    ensures var s := Run(actions);
            && s.atFinal.Some?
            && forall j :: 0 <= j < |s.wire| && s.wire[j].0.Push? && s.wire[j].1 ==>
                 s.wire[j].0.at < s.atFinal.value.count - 1
  {
    var wire := Run(actions).wire;
    var i :| 0 <= i < |wire| && wire[i].0.Push? && !wire[i].1;
    LastWrite(actions);
    SentInOrder(actions);
    FailureIsLast(actions, i);
    RefusedIsLast(wire, i);
  }

  lemma RefusedIsLast(wire: seq<(Request, bool)>, i: nat)
    requires i < |wire| && wire[i].0.Push? && forall j :: i < j < |wire| ==> wire[j].0.Close?
    ensures LastTaken(Requests(wire)) == wire[i].0.at
  {
    LastTakenPushed(Requests(wire));
    assert Requests(wire)[i] == wire[i].0 && LastPush(Requests(wire), i);
  }

  /** The push that carried update `at` was accepted. */
  ghost predicate Delivered(wire: seq<(Request, bool)>, at: nat) {
    exists i :: 0 <= i < |wire| && wire[i].0.Push? && wire[i].0.at == at && wire[i].1
  }

  /** Request `i` is a push, and only closing requests follow. */
  ghost predicate LastPush(requests: seq<Request>, i: nat)
    requires i < |requests|
  {
    requests[i].Push? && forall j :: i < j < |requests| ==> requests[j].Close?
  }

  /** What was taken last is what the last push carried. */
  lemma {:induction false} LastTakenPushed(requests: seq<Request>)
    ensures LastTaken(requests) >= 0 ==>
              exists i :: 0 <= i < |requests| && requests[i].Push? && requests[i].at == LastTaken(requests)
    ensures forall i :: 0 <= i < |requests| && LastPush(requests, i) ==> LastTaken(requests) == requests[i].at
  {
    if requests != [] && requests[|requests| - 1].Close? {
      var front := requests[..|requests| - 1];
      LastTakenPushed(front);
      assert forall i :: 0 <= i < |front| && LastPush(requests, i) ==> LastPush(front, i);
    }
  }

  /** Two consecutive pushes are at least the throttle interval apart, unless the
      second is `Finish`'s own. */
  lemma LoopKeepsDistance(actions: seq<Action>, i: nat)
    requires 0 < i < |Run(actions).wire|
    requires Run(actions).wire[i].0.Push? && Run(actions).wire[i].0.byLoop
    ensures Run(actions).wire[i - 1].0.Push?
    ensures Run(actions).wire[i].0.time - Run(actions).wire[i - 1].0.time >= THROTTLE
  {
    RunKeepsInv(actions);
    var s := Run(actions);
    assert Issued(s)[i] == s.wire[i].0 && Issued(s)[i - 1] == s.wire[i - 1].0;
  }
}
