/**
 Every run is finite: a measure over both ends, the wire and the completion queues
 that no step increases, and that bounds the length of all runs.
 */
module Termination {
  import opened Protocol
  import opened Invariant
  import opened Theorems

  // What the steps of an end and of its messages still amount to. A send not posted yet
  // or not delivered yet stands for a delivery, an acknowledgement and two handled
  // completions, and with `polls` also for two polls.
  function EndWork(c: Config, e: End, polls: bool): int {
    var unposted := c.iters + c.n - 1 - Sum(e.ports, Sent);
    var unsent := unposted + Sum(e.ports, Outgoing);
    if polls then 6 * unsent + 3 * Sum(e.ports, Unacked) + 2 * |e.cq| + |e.batch|
    else 4 * unsent + 2 * Sum(e.ports, Unacked) + |e.cq| + |e.batch|
  }

  function Measure(c: Config, s: State, polls: bool): int {
    EndWork(c, s.client, polls) + EndWork(c, s.server, polls)
  }

  // Without `polls` only deliver, ack and process steps are counted.
  function Cost(step: Step, polls: bool): nat {
    if step.Poll? && !polls then 0 else 1
  }

  function RunCost(steps: seq<Step>, polls: bool): nat {
    if steps == [] then 0
    else RunCost(steps[..|steps| - 1], polls) + Cost(steps[|steps| - 1], polls)
  }

  lemma PortChange(ports: seq<Port>, k: nat, p: Port)
    requires k < |ports|
    ensures Sum(ports[k := p], Sent) == Sum(ports, Sent) - ports[k].sent + p.sent
    ensures Sum(ports[k := p], Outgoing) == Sum(ports, Outgoing) - ports[k].outgoing + p.outgoing
    ensures Sum(ports[k := p], Unacked) == Sum(ports, Unacked) - ports[k].unacked + p.unacked
  {
    SumUpdate(ports, k, p, Sent);
    SumUpdate(ports, k, p, Outgoing);
    SumUpdate(ports, k, p, Unacked);
  }

  lemma DeliverWork(c: Config, a: End, b: End, k: nat, polls: bool)
    requires k < |a.ports| && k < |b.ports| && a.ports[k].outgoing > 0 && b.ports[k].credits > 0
    ensures EndWork(c, Delivered(a, k), polls) + EndWork(c, Arrived(b, k), polls)
            == EndWork(c, a, polls) + EndWork(c, b, polls) - 1
  {
    PortChange(a.ports, k, Delivered(a, k).ports[k]);
    PortChange(b.ports, k, Arrived(b, k).ports[k]);
  }

  lemma AckWork(c: Config, a: End, k: nat, polls: bool)
    requires k < |a.ports| && a.ports[k].unacked > 0
    ensures EndWork(c, Acknowledged(a, k), polls) == EndWork(c, a, polls) - 1
  {
    PortChange(a.ports, k, Acknowledged(a, k).ports[k]);
  }

  lemma ProcessWork(c: Config, a: End, polls: bool)
    requires Shaped(c, a) && a.batch != []
    ensures EndWork(c, Processed(c, a), polls) == EndWork(c, a, polls) - 1
  {
    ProcessShaped(c, a);
    PortChange(a.ports, a.batch[0].qp, Processed(c, a).ports[a.batch[0].qp]);
  }

  lemma PollWork(c: Config, a: End, count: nat, polls: bool)
    requires a.batch == [] && 1 <= count <= |a.cq|
    ensures EndWork(c, Polled(a, count), polls) + Bit(polls) <= EndWork(c, a, polls)
  {
  }

  lemma MeasureWith(c: Config, s: State, side: Side, e: End, polls: bool)
    ensures Measure(c, s.With(side, e), polls)
            == Measure(c, s, polls) - EndWork(c, s.At(side), polls) + EndWork(c, e, polls)
  {
  }

  lemma DeliverDecreases(c: Config, s: State, from: Side, k: nat, polls: bool)
    requires Enabled(c, s, Deliver(from, k))
    ensures Measure(c, Apply(c, s, Deliver(from, k)), polls) == Measure(c, s, polls) - 1
  {
    var a, b := s.At(from), s.At(from.Peer());
    DeliverWork(c, a, b, k, polls);
    MeasureWith(c, s, from, Delivered(a, k), polls);
    MeasureWith(c, s.With(from, Delivered(a, k)), from.Peer(), Arrived(b, k), polls);
  }

  lemma ProcessDecreases(c: Config, s: State, side: Side, polls: bool)
    requires Enabled(c, s, Process(side))
    ensures Measure(c, Apply(c, s, Process(side)), polls) == Measure(c, s, polls) - 1
  {
    ProcessWork(c, s.At(side), polls);
    MeasureWith(c, s, side, Processed(c, s.At(side)), polls);
  }

  /** Every delivery, acknowledgement and handled completion decreases the measure by one. */
  lemma StepDecreases(c: Config, s: State, step: Step, polls: bool)
    requires Enabled(c, s, step)
    ensures Measure(c, Apply(c, s, step), polls) + (if step.Poll? && !polls then 0 else 1)
            <= Measure(c, s, polls)
  {
    match step
    case Deliver(from, k) =>
      DeliverDecreases(c, s, from, k, polls);
    case Ack(side, k) =>
      AckWork(c, s.At(side), k, polls);
      MeasureWith(c, s, side, Acknowledged(s.At(side), k), polls);
    case Poll(side, count) =>
      PollWork(c, s.At(side), count, polls);
      MeasureWith(c, s, side, Polled(s.At(side), count), polls);
    case Process(side) =>
      ProcessDecreases(c, s, side, polls);
  }

  lemma InitMeasure(c: Config, polls: bool)
    ensures Measure(c, Init(c), polls) == (if polls then 12 else 8) * (c.iters + c.n - 1)
  {
    var s := Init(c);
    SumConstant(s.client.ports, Sent, 1);
    SumConstant(s.client.ports, Outgoing, 1);
    SumConstant(s.client.ports, Unacked, 0);
    SumConstant(s.server.ports, Sent, 0);
    SumConstant(s.server.ports, Outgoing, 0);
    SumConstant(s.server.ports, Unacked, 0);
  }

  lemma {:induction false} CostPlusMeasure(c: Config, steps: seq<Step>, polls: bool)
    requires Legal(c, steps)
    ensures RunCost(steps, polls) + Measure(c, After(c, steps), polls) <= Measure(c, Init(c), polls)
  {
    if steps != [] {
      var last := |steps| - 1;
      CostPlusMeasure(c, steps[..last], polls);
      StepDecreases(c, After(c, steps[..last]), steps[last], polls);
    }
  }

  lemma MeasureNonNegative(c: Config, s: State, polls: bool)
    requires Inv(c, s)
    ensures Measure(c, s, polls) >= 0
  {
  }

  // Where in a run the steps stand that are not polls.
  ghost function NoPolls(steps: seq<Step>): set<int> {
    set i | 0 <= i < |steps| && !steps[i].Poll?
  }

  lemma OneMoreStep(steps: seq<Step>)
    requires steps != []
    ensures var last := |steps| - 1;
            |NoPolls(steps)| == |NoPolls(steps[..last])| + if steps[last].Poll? then 0 else 1
  {
    var last := |steps| - 1;
    var before := NoPolls(steps[..last]);
    assert last !in before;
    if steps[last].Poll? {
      assert NoPolls(steps) == before;
    } else {
      assert NoPolls(steps) == before + {last};
    }
  }

  // The cost of a run is the number of its steps, or of those that are not polls.
  lemma {:induction false} CostIsCount(steps: seq<Step>)
    ensures RunCost(steps, true) == |steps|
    ensures RunCost(steps, false) == |NoPolls(steps)|
  {
    if steps == [] {
      assert NoPolls(steps) == {};
    } else {
      CostIsCount(steps[..|steps| - 1]);
      OneMoreStep(steps);
    }
  }

  /**
   A run has at most `8 * (iters + n - 1)` deliver, ack and process steps, and at most
   `12 * (iters + n - 1)` steps when the polls that find something are counted too.
   */
  lemma RunsAreBounded(c: Config, steps: seq<Step>)
    requires Legal(c, steps)
    ensures |set i | 0 <= i < |steps| && !steps[i].Poll?| <= 8 * (c.iters + c.n - 1)
    ensures |steps| <= 12 * (c.iters + c.n - 1)
  {
    InvHolds(c, steps);
    forall polls: bool
      ensures RunCost(steps, polls) <= (if polls then 12 else 8) * (c.iters + c.n - 1)
    {
      CostPlusMeasure(c, steps, polls);
      MeasureNonNegative(c, After(c, steps), polls);
      InitMeasure(c, polls);
    }
    CostIsCount(steps);
  }

  lemma StepMakesProgress(c: Config, steps: seq<Step>, step: Step)
    requires Legal(c, steps) && Enabled(c, After(c, steps), step)
    ensures Legal(c, steps + [step])
    ensures 0 <= Measure(c, After(c, steps + [step]), true) < Measure(c, After(c, steps), true)
  {
    Extend(c, steps, step);
    StepDecreases(c, After(c, steps), step, true);
    InvHolds(c, steps + [step]);
    MeasureNonNegative(c, After(c, steps + [step]), true);
  }

  // A finished run: nothing can happen any more, and both ends have left their loops.
  ghost predicate Finished(c: Config, steps: seq<Step>) {
    && Legal(c, steps)
    && Stuck(c, After(c, steps))
    && Done(c, After(c, steps).client.host)
    && Done(c, After(c, steps).server.host)
  }

  // Either the run is finished, or some step makes progress.
  lemma FinishedOrProgress(c: Config, steps: seq<Step>) returns (finished: bool, step: Step)
    requires Legal(c, steps)
    ensures finished ==> Finished(c, steps)
    ensures !finished ==>
              && Legal(c, steps + [step])
              && 0 <= Measure(c, After(c, steps + [step]), true) < Measure(c, After(c, steps), true)
  {
    step := Process(Client);
    finished := Stuck(c, After(c, steps));
    if finished {
      NoStuckState(c, steps);
    } else {
      step :| Enabled(c, After(c, steps), step);
      StepMakesProgress(c, steps, step);
    }
  }

  lemma {:induction false} CompletesWithin(c: Config, steps: seq<Step>, left: nat) returns (all: seq<Step>)
    requires Legal(c, steps) && Measure(c, After(c, steps), true) <= left
    ensures steps <= all && Finished(c, all)
    decreases left
  {
    var finished, step := FinishedOrProgress(c, steps);
    if finished {
      all := steps;
    } else {
      all := CompletesWithin(c, steps + [step], left - 1);
    }
  }

  /**
   Every run can be continued to a finished one. With the queues the program creates this
   holds exactly when two completions per QP fit (`CqOverrun.RunsCompleteExactly`).
   */
  lemma EveryRunCompletes(c: Config, steps: seq<Step>) returns (all: seq<Step>)
    requires Legal(c, steps)
    ensures steps <= all && Finished(c, all)
  {
    InvHolds(c, steps);
    MeasureNonNegative(c, After(c, steps), true);
    all := CompletesWithin(c, steps, Measure(c, After(c, steps), true));
  }
}
