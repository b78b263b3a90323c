/**
 The single-QP loop with its event-driven mode, which each end chooses for itself: the
 program sleeps in `ibv_get_cq_event` until the adapter raises a completion event.
 Requesting a notification arms the queue for one event, raised by the next completion
 added to it (Request Completion Notification, section 11.4.2.2 of the InfiniBand
 Architecture Specification, Volume 1).
 */
module EventMode {
  import opened Protocol
  import opened Invariant
  import opened Theorems
  import opened Termination

  // The loop head with its test and the wait; after the event, before the queue is armed
  // again; armed, before the one poll of two.
  datatype Pc = Top | Woken | Rearmed

  datatype Waiter = Waiter(pc: Pc, armed: bool, events: nat)

  datatype Sleepy = Sleepy(proto: State, client: Waiter, server: Waiter) {
    function At(side: Side): Waiter {
      if side == Client then client else server
    }
    function With(side: Side, w: Waiter): Sleepy {
      if side == Client then this.(client := w) else this.(server := w)
    }
  }

  datatype SleepyStep =
    | Adapter(step: Step)
    | GetEvent(side: Side)
    | Rearm(side: Side)
    | PollTwo(side: Side)
    | PollNow(side: Side)
    | HandleOne(side: Side)

  // Whether each end was started with `--events`.
  datatype Modes = Modes(client: bool, server: bool) {
    function Of(side: Side): bool {
      if side == Client then client else server
    }
  }

  type OneQp = c: Config | c.n == 1 witness RawConfig(1, 1, 1)

  // In event mode an end requests a notification before the handshake, with an empty queue.
  function InitSleepy(c: OneQp, m: Modes): Sleepy {
    Sleepy(Init(c), Waiter(Top, m.client, 0), Waiter(Top, m.server, 0))
  }

  // At the loop head with the batch handled and the loop test holding; in event mode, about
  // to block in `ibv_get_cq_event`.
  predicate AboutToWait(c: OneQp, s: Sleepy, side: Side) {
    && s.At(side).pc == Top
    && !s.proto.At(side).host.failed
    && s.proto.At(side).batch == []
    && !Done(c, s.proto.At(side).host)
  }

  // A completion was added to this end's queue.
  function Notified(w: Waiter): Waiter {
    if w.armed then w.(armed := false, events := w.events + 1) else w
  }

  // How many completions one poll of the two-entry array takes.
  function Taken(e: End): nat {
    if |e.cq| < 2 then |e.cq| else 2
  }

  predicate SleepyEnabled(c: OneQp, m: Modes, s: Sleepy, step: SleepyStep) {
    match step
    case Adapter(move) => (move.Deliver? || move.Ack?) && Enabled(c, s.proto, move)
    case GetEvent(side) => m.Of(side) && AboutToWait(c, s, side) && s.At(side).events > 0
    case Rearm(side) => s.At(side).pc == Woken
    case PollTwo(side) =>
      && s.At(side).pc == Rearmed
      && (s.proto.At(side).cq != [] ==>
            Enabled(c, s.proto, Poll(side, Taken(s.proto.At(side)))))
    case PollNow(side) =>
      !m.Of(side) && s.At(side).pc == Top && Enabled(c, s.proto, Poll(side, Taken(s.proto.At(side))))
    case HandleOne(side) => s.At(side).pc == Top && Enabled(c, s.proto, Process(side))
  }

  function SleepyApply(c: OneQp, m: Modes, s: Sleepy, step: SleepyStep): Sleepy
    requires SleepyEnabled(c, m, s, step)
  {
    match step
    case Adapter(move) =>
      var to := if move.Deliver? then move.from.Peer() else move.side;
      s.(proto := Apply(c, s.proto, move)).With(to, Notified(s.At(to)))
    case GetEvent(side) =>
      var w := s.At(side);
      s.With(side, w.(pc := Woken, events := w.events - 1))
    case Rearm(side) =>
      s.With(side, s.At(side).(pc := Rearmed, armed := true))
    case PollTwo(side) =>
      var e := s.proto.At(side);
      var proto := if e.cq == [] then s.proto else Apply(c, s.proto, Poll(side, Taken(e)));
      s.(proto := proto).With(side, s.At(side).(pc := Top))
    case PollNow(side) =>
      s.(proto := Apply(c, s.proto, Poll(side, Taken(s.proto.At(side)))))
    case HandleOne(side) =>
      s.(proto := Apply(c, s.proto, Process(side)))
  }

  ghost predicate SleepyLegal(c: OneQp, m: Modes, steps: seq<SleepyStep>)
    decreases |steps|, 0
  {
    steps == [] ||
    (var last := |steps| - 1;
     && SleepyLegal(c, m, steps[..last])
     && SleepyEnabled(c, m, SleepyAfter(c, m, steps[..last]), steps[last]))
  }

  ghost function SleepyAfter(c: OneQp, m: Modes, steps: seq<SleepyStep>): Sleepy
    requires SleepyLegal(c, m, steps)
    decreases |steps|, 1
  {
    if steps == [] then InitSleepy(c, m)
    else
      var last := |steps| - 1;
      SleepyApply(c, m, SleepyAfter(c, m, steps[..last]), steps[last])
  }

  // The protocol step behind a step in event mode, if there is one.
  function PlainStep(s: Sleepy, step: SleepyStep): seq<Step> {
    match step
    case Adapter(move) => [move]
    case PollTwo(side) =>
      if s.proto.At(side).cq == [] then [] else [Poll(side, Taken(s.proto.At(side)))]
    case PollNow(side) => [Poll(side, Taken(s.proto.At(side)))]
    case HandleOne(side) => [Process(side)]
    case GetEvent(_) => []
    case Rearm(_) => []
  }

  ghost function Plain(c: OneQp, m: Modes, steps: seq<SleepyStep>): seq<Step>
    requires SleepyLegal(c, m, steps)
  {
    if steps == [] then []
    else
      var last := |steps| - 1;
      Plain(c, m, steps[..last]) + PlainStep(SleepyAfter(c, m, steps[..last]), steps[last])
  }

  lemma PlainStepMoves(c: OneQp, m: Modes, s: Sleepy, step: SleepyStep)
    requires SleepyEnabled(c, m, s, step)
    ensures PlainStep(s, step) == [] ==> SleepyApply(c, m, s, step).proto == s.proto
    ensures PlainStep(s, step) != [] ==>
              && |PlainStep(s, step)| == 1
              && Enabled(c, s.proto, PlainStep(s, step)[0])
              && SleepyApply(c, m, s, step).proto == Apply(c, s.proto, PlainStep(s, step)[0])
  {
  }

  lemma PlainStepRuns(c: OneQp, m: Modes, run: seq<Step>, s: Sleepy, step: SleepyStep)
    requires Legal(c, run) && After(c, run) == s.proto && SleepyEnabled(c, m, s, step)
    ensures Legal(c, run + PlainStep(s, step))
    ensures After(c, run + PlainStep(s, step)) == SleepyApply(c, m, s, step).proto
  {
    var plain := PlainStep(s, step);
    PlainStepMoves(c, m, s, step);
    if plain == [] {
      assert run + plain == run;
    } else {
      assert plain == [plain[0]];
      Extend(c, run, plain[0]);
    }
  }

  /** Whatever the modes, the runs refine the polling protocol: they are runs of the protocol. */
  lemma {:induction false} PlainRun(c: OneQp, m: Modes, steps: seq<SleepyStep>)
    requires SleepyLegal(c, m, steps)
    ensures Legal(c, Plain(c, m, steps))
    ensures After(c, Plain(c, m, steps)) == SleepyAfter(c, m, steps).proto
  {
    if steps != [] {
      var last := |steps| - 1;
      PlainRun(c, m, steps[..last]);
      PlainStepRuns(c, m, Plain(c, m, steps[..last]), SleepyAfter(c, m, steps[..last]), steps[last]);
    }
  }

  /**
   The modes hold nothing up but the programs' polls: the adapters may move at any time, and
   a program with completions in hand handles them.
   */
  lemma {:induction false} AdaptersAreFree(c: OneQp, m: Modes, steps: seq<SleepyStep>, side: Side)
    requires SleepyLegal(c, m, steps)
    ensures var s := SleepyAfter(c, m, steps);
            && |s.proto.At(side).ports| == 1
            && (SleepyEnabled(c, m, s, Adapter(Deliver(side, 0))) <==> s.proto.At(side).ports[0].outgoing > 0)
            && (SleepyEnabled(c, m, s, Adapter(Ack(side, 0))) <==> s.proto.At(side).ports[0].unacked > 0)
            && (SleepyEnabled(c, m, s, HandleOne(side)) <==> s.proto.At(side).batch != [])
  {
    PlainRun(c, m, steps);
    InvHolds(c, Plain(c, m, steps));
    StepsAreFree(c, Plain(c, m, steps), side, 0, 0);
    WaitersOk(c, m, steps, side);
  }

  // At the loop head either an event waits, or the queue is empty and armed; between
  // re-arming and polling, no completion can slip in unnoticed.
  predicate WaiterOk(c: OneQp, sleeps: bool, e: End, w: Waiter) {
    && (sleeps && w.pc == Top ==> w.events > 0 || (w.armed && e.cq == []))
    && (!sleeps ==> w.pc == Top)
    && (w.pc == Rearmed ==> w.events > 0 || w.armed)
    && (w.pc != Top ==> e.batch == [] && !Done(c, e.host) && !e.host.failed)
    && |e.cq| <= 2
  }

  lemma WaiterStepOk(c: OneQp, m: Modes, s: Sleepy, step: SleepyStep, side: Side)
    requires SleepyEnabled(c, m, s, step)
    requires WaiterOk(c, m.Of(side), s.proto.At(side), s.At(side))
    requires |SleepyApply(c, m, s, step).proto.At(side).cq| <= 2
    ensures WaiterOk(c, m.Of(side), SleepyApply(c, m, s, step).proto.At(side), SleepyApply(c, m, s, step).At(side))
  {
  }

  lemma {:induction false} WaitersOk(c: OneQp, m: Modes, steps: seq<SleepyStep>, side: Side)
    requires SleepyLegal(c, m, steps)
    ensures WaiterOk(c, m.Of(side), SleepyAfter(c, m, steps).proto.At(side), SleepyAfter(c, m, steps).At(side))
  {
    PlainRun(c, m, steps);
    CompletionBound(c, Plain(c, m, steps), side);
    if steps != [] {
      var last := |steps| - 1;
      WaitersOk(c, m, steps[..last], side);
      WaiterStepOk(c, m, SleepyAfter(c, m, steps[..last]), steps[last], side);
    }
  }

  /**
   No lost wakeup: a program about to block finds an event waiting, or its queue is empty
   and armed, so the next completion will wake it.
   */
  lemma NoLostWakeup(c: OneQp, m: Modes, steps: seq<SleepyStep>, side: Side)
    requires SleepyLegal(c, m, steps) && m.Of(side) && AboutToWait(c, SleepyAfter(c, m, steps), side)
    ensures var w := SleepyAfter(c, m, steps).At(side);
            w.events > 0 || (w.armed && SleepyAfter(c, m, steps).proto.At(side).cq == [])
  {
    WaitersOk(c, m, steps, side);
  }

  // In event mode a notification is always in exactly one place: requested and not yet
  // raised, raised and not yet taken, or taken and not yet requested again.
  predicate OneNotification(w: Waiter) {
    w.events + (if w.armed then 1 else 0) + (if w.pc == Woken then 1 else 0) == 1
  }

  /** Each request raises at most one event, and no event is raised without one. */
  lemma {:induction false} NotificationsConserved(c: OneQp, m: Modes, steps: seq<SleepyStep>, side: Side)
    requires SleepyLegal(c, m, steps)
    ensures var w := SleepyAfter(c, m, steps).At(side);
            if m.Of(side) then
              w.events + (if w.armed then 1 else 0) + (if w.pc == Woken then 1 else 0) == 1
            else w == Waiter(Top, false, 0)
  {
    if steps != [] {
      var last := |steps| - 1;
      NotificationsConserved(c, m, steps[..last], side);
      var s := SleepyAfter(c, m, steps[..last]);
      NotificationStep(c, m, s, steps[last], side);
    }
  }

  lemma NotificationStep(c: OneQp, m: Modes, s: Sleepy, step: SleepyStep, side: Side)
    requires SleepyEnabled(c, m, s, step)
    requires if m.Of(side) then OneNotification(s.At(side)) else s.At(side) == Waiter(Top, false, 0)
    ensures var w := SleepyApply(c, m, s, step).At(side);
            if m.Of(side) then OneNotification(w) else w == Waiter(Top, false, 0)
  {
  }

  ghost predicate Asleep(c: OneQp, m: Modes, s: Sleepy) {
    forall step :: !SleepyEnabled(c, m, s, step)
  }

  // A program that cannot move is at its loop head.
  lemma AsleepAtTop(c: OneQp, m: Modes, s: Sleepy, side: Side)
    requires Inv(c, s.proto) && WaiterOk(c, m.Of(side), s.proto.At(side), s.At(side))
    requires !SleepyEnabled(c, m, s, Rearm(side)) && !SleepyEnabled(c, m, s, PollTwo(side))
    ensures s.At(side).pc == Top
  {
    if s.At(side).pc == Rearmed {
      assert Enabled(c, s.proto, Poll(side, Taken(s.proto.At(side))));
    }
  }

  lemma AsleepEnd(c: OneQp, m: Modes, s: Sleepy, side: Side)
    requires Inv(c, s.proto) && WaiterOk(c, m.Of(side), s.proto.At(side), s.At(side))
    requires Asleep(c, m, s)
    ensures !Enabled(c, s.proto, Process(side))
    ensures forall count :: !Enabled(c, s.proto, Poll(side, count))
  {
    assert !SleepyEnabled(c, m, s, HandleOne(side));
    assert !SleepyEnabled(c, m, s, GetEvent(side));
    assert !SleepyEnabled(c, m, s, PollNow(side));
    assert !SleepyEnabled(c, m, s, Rearm(side)) && !SleepyEnabled(c, m, s, PollTwo(side));
    AsleepAtTop(c, m, s, side);
  }

  /** Nobody sleeps for ever: when nothing can happen any more, both ends are finished. */
  lemma NobodySleepsForever(c: OneQp, m: Modes, steps: seq<SleepyStep>)
    requires SleepyLegal(c, m, steps) && Asleep(c, m, SleepyAfter(c, m, steps))
    ensures forall side :: Done(c, SleepyAfter(c, m, steps).proto.At(side).host)
    ensures forall side ::
              var h := SleepyAfter(c, m, steps).proto.At(side).host;
              h.scnt == c.iters && h.rcnt == c.iters
  {
    var s := SleepyAfter(c, m, steps);
    PlainRun(c, m, steps);
    InvHolds(c, Plain(c, m, steps));
    forall step
      ensures !Enabled(c, s.proto, step)
    {
      match step
      case Deliver(from, k) => assert !SleepyEnabled(c, m, s, Adapter(step));
      case Ack(side, k) => assert !SleepyEnabled(c, m, s, Adapter(step));
      case Poll(side, _) => WaitersOk(c, m, steps, side); AsleepEnd(c, m, s, side);
      case Process(side) => WaitersOk(c, m, steps, side); AsleepEnd(c, m, s, side);
    }
    NoStuckState(c, Plain(c, m, steps));
    forall side: Side
      ensures Done(c, s.proto.At(side).host)
      ensures s.proto.At(side).host.scnt == c.iters && s.proto.At(side).host.rcnt == c.iters
    {
      SingleQpExact(c, Plain(c, m, steps), side);
    }
  }

  // Deliveries and acknowledgements still to come: each adds a completion to a queue and
  // so may raise an event. They are two for a send not yet delivered and one for a send
  // not yet acknowledged, which is what the polls add to the measure of the protocol.
  function Arrivals(c: Config, s: State): int {
    Measure(c, s, true) - Measure(c, s, false) - |s.client.cq| - |s.server.cq|
  }

  lemma ArrivalsDeliver(c: Config, s: State, from: Side, k: nat)
    requires Enabled(c, s, Deliver(from, k))
    ensures Arrivals(c, Apply(c, s, Deliver(from, k))) == Arrivals(c, s) - 1
  {
    DeliverDecreases(c, s, from, k, true);
    DeliverDecreases(c, s, from, k, false);
  }

  // What a change of one end alone does.
  lemma ArrivalsWith(c: Config, s: State, side: Side, e: End)
    ensures Arrivals(c, s.With(side, e))
            == Arrivals(c, s) - (EndWork(c, s.At(side), true) - EndWork(c, s.At(side), false) - |s.At(side).cq|)
               + (EndWork(c, e, true) - EndWork(c, e, false) - |e.cq|)
  {
    MeasureWith(c, s, side, e, true);
    MeasureWith(c, s, side, e, false);
  }

  lemma ArrivalsAck(c: Config, s: State, side: Side, k: nat)
    requires Enabled(c, s, Ack(side, k))
    ensures Arrivals(c, Apply(c, s, Ack(side, k))) == Arrivals(c, s) - 1
  {
    AckWork(c, s.At(side), k, true);
    AckWork(c, s.At(side), k, false);
    ArrivalsWith(c, s, side, Acknowledged(s.At(side), k));
  }

  lemma ArrivalsProgram(c: Config, s: State, step: Step)
    requires Enabled(c, s, step) && (step.Poll? || step.Process?)
    ensures Arrivals(c, Apply(c, s, step)) == Arrivals(c, s)
  {
    var side := step.side;
    match step
    case Poll(_, count) =>
      ArrivalsWith(c, s, side, Polled(s.At(side), count));
    case Process(_) =>
      ProcessWork(c, s.At(side), true);
      ProcessWork(c, s.At(side), false);
      ArrivalsWith(c, s, side, Processed(c, s.At(side)));
  }

  lemma ArrivalsStep(c: Config, s: State, step: Step)
    requires Enabled(c, s, step)
    ensures Arrivals(c, Apply(c, s, step))
            == Arrivals(c, s) - if step.Deliver? || step.Ack? then 1 else 0
  {
    match step
    case Deliver(from, k) => ArrivalsDeliver(c, s, from, k);
    case Ack(side, k) => ArrivalsAck(c, s, side, k);
    case _ => ArrivalsProgram(c, s, step);
  }

  // An event that waits costs its program the wait, the re-arming and a poll.
  function WaiterWork(w: Waiter): nat {
    3 * w.events
    + match w.pc
      case Top => 0
      case Woken => 2
      case Rearmed => 1
  }

  function SleepyMeasure(c: OneQp, s: Sleepy): int {
    Measure(c, s.proto, true) + 3 * Arrivals(c, s.proto) + WaiterWork(s.client) + WaiterWork(s.server)
  }

  // The program's waiting by itself, and what the adapter adds to it.
  lemma WaitersStep(c: OneQp, m: Modes, s: Sleepy, step: SleepyStep)
    requires SleepyEnabled(c, m, s, step)
    ensures var t := SleepyApply(c, m, s, step);
            WaiterWork(t.client) + WaiterWork(t.server)
            <= WaiterWork(s.client) + WaiterWork(s.server)
               + if step.Adapter? then 3 else if step.PollNow? || step.HandleOne? then 0 else -1
  {
  }

  /** Every step with either end polling or sleeping decreases a measure of the whole state. */
  lemma SleepyStepDecreases(c: OneQp, m: Modes, s: Sleepy, step: SleepyStep)
    requires SleepyEnabled(c, m, s, step)
    ensures SleepyMeasure(c, SleepyApply(c, m, s, step)) < SleepyMeasure(c, s)
  {
    PlainStepMoves(c, m, s, step);
    WaitersStep(c, m, s, step);
    var plain := PlainStep(s, step);
    if plain != [] {
      StepDecreases(c, s.proto, plain[0], true);
      ArrivalsStep(c, s.proto, plain[0]);
    }
  }

  lemma SleepyNonNegative(c: OneQp, s: Sleepy)
    requires Inv(c, s.proto)
    ensures SleepyMeasure(c, s) >= 0
  {
    MeasureNonNegative(c, s.proto, true);
  }

  lemma {:induction false} SleepyStepsPlusMeasure(c: OneQp, m: Modes, steps: seq<SleepyStep>)
    requires SleepyLegal(c, m, steps)
    ensures |steps| + SleepyMeasure(c, SleepyAfter(c, m, steps)) <= SleepyMeasure(c, InitSleepy(c, m))
  {
    if steps != [] {
      var last := |steps| - 1;
      SleepyStepsPlusMeasure(c, m, steps[..last]);
      SleepyStepDecreases(c, m, SleepyAfter(c, m, steps[..last]), steps[last]);
    }
  }

  lemma SleepyStateOk(c: OneQp, m: Modes, steps: seq<SleepyStep>)
    requires SleepyLegal(c, m, steps)
    ensures SleepyMeasure(c, SleepyAfter(c, m, steps)) >= 0
  {
    PlainRun(c, m, steps);
    InvHolds(c, Plain(c, m, steps));
    SleepyNonNegative(c, SleepyAfter(c, m, steps));
  }

  /** Whatever the modes, a run has at most `24 * iters` steps, the waits and re-armings included. */
  lemma SleepyRunsAreBounded(c: OneQp, m: Modes, steps: seq<SleepyStep>)
    requires SleepyLegal(c, m, steps)
    ensures |steps| <= 24 * c.iters
  {
    SleepyStateOk(c, m, steps);
    SleepyStepsPlusMeasure(c, m, steps);
    InitMeasure(c, true);
    InitMeasure(c, false);
  }

  ghost predicate SleepyFinished(c: OneQp, m: Modes, steps: seq<SleepyStep>) {
    && SleepyLegal(c, m, steps)
    && Asleep(c, m, SleepyAfter(c, m, steps))
    && forall side ::
         var h := SleepyAfter(c, m, steps).proto.At(side).host;
         h.scnt == c.iters && h.rcnt == c.iters
  }

  lemma {:induction false} SleepyCompletesWithin(c: OneQp, m: Modes, steps: seq<SleepyStep>, bound: nat)
    returns (all: seq<SleepyStep>)
    requires SleepyLegal(c, m, steps) && SleepyMeasure(c, SleepyAfter(c, m, steps)) <= bound
    ensures steps <= all && SleepyFinished(c, m, all)
    decreases bound
  {
    var s := SleepyAfter(c, m, steps);
    if Asleep(c, m, s) {
      NobodySleepsForever(c, m, steps);
      all := steps;
    } else {
      var step :| SleepyEnabled(c, m, s, step);
      var longer := steps + [step];
      assert longer[..|steps|] == steps;
      SleepyStepDecreases(c, m, s, step);
      SleepyStateOk(c, m, longer);
      all := SleepyCompletesWithin(c, m, longer, bound - 1);
    }
  }

  /**
   Whatever the modes, every run can be continued to one in which both ends have made
   exactly `iters` exchanges and nothing can happen any more.
   */
  lemma EverySleepyRunCompletes(c: OneQp, m: Modes, steps: seq<SleepyStep>) returns (all: seq<SleepyStep>)
    requires SleepyLegal(c, m, steps)
    ensures steps <= all && SleepyFinished(c, m, all)
  {
    SleepyStateOk(c, m, steps);
    all := SleepyCompletesWithin(c, m, steps, SleepyMeasure(c, SleepyAfter(c, m, steps)));
  }
}
