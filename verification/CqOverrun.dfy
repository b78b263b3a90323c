/**
 The protocol with the completion queues the program creates, of `rx_depth + 1` entries.
 A completion that finds its queue full overruns it, and the connection is lost. Without
 an overrun the runs are those of the protocol with unbounded queues, and no run fails
 and every run completes exactly when two completions per QP fit.
 */
module CqOverrun {
  import opened Protocol
  import opened Invariant
  import opened Theorems
  import opened Termination
  import opened CqCapacity

  datatype Queued = Queued(proto: State, overrun: bool)

  // Entries the program asks for: the receive queue's depth and one more.
  function CqEntries(c: Config): nat {
    c.rxDepth + 1
  }

  // The step adds a completion to a queue that is full.
  predicate Overruns(c: Config, s: State, step: Step) {
    match step
    case Deliver(from, _) => |s.At(from.Peer()).cq| >= CqEntries(c)
    case Ack(side, _) => |s.At(side).cq| >= CqEntries(c)
    case _ => false
  }

  predicate QueuedEnabled(c: Config, q: Queued, step: Step) {
    !q.overrun && Enabled(c, q.proto, step)
  }

  function QueuedApply(c: Config, q: Queued, step: Step): Queued
    requires QueuedEnabled(c, q, step)
  {
    if Overruns(c, q.proto, step) then q.(overrun := true)
    else Queued(Apply(c, q.proto, step), false)
  }

  ghost predicate QueuedLegal(c: Config, steps: seq<Step>)
    decreases |steps|, 0
  {
    steps == [] ||
    (var last := |steps| - 1;
     && QueuedLegal(c, steps[..last])
     && QueuedEnabled(c, QueuedAfter(c, steps[..last]), steps[last]))
  }

  ghost function QueuedAfter(c: Config, steps: seq<Step>): Queued
    requires QueuedLegal(c, steps)
    decreases |steps|, 1
  {
    if steps == [] then Queued(Init(c), false)
    else
      var last := |steps| - 1;
      QueuedApply(c, QueuedAfter(c, steps[..last]), steps[last])
  }

  predicate TooFull(c: Config, s: State) {
    |s.client.cq| > CqEntries(c) || |s.server.cq| > CqEntries(c)
  }

  lemma FullerQueue(c: Config, s: State, step: Step)
    requires Enabled(c, s, step) && !TooFull(c, s)
    ensures Overruns(c, s, step) <==> TooFull(c, Apply(c, s, step))
  {
  }

  // A run of the bounded queues is one of the protocol. An overrun is a last step that
  // would have left one completion too many.
  lemma {:induction false} QueuedRun(c: Config, steps: seq<Step>)
    requires QueuedLegal(c, steps)
    ensures Legal(c, steps)
    ensures !QueuedAfter(c, steps).overrun ==> QueuedAfter(c, steps).proto == After(c, steps)
    ensures QueuedAfter(c, steps).overrun <==> TooFull(c, After(c, steps))
  {
    if steps != [] {
      var last := |steps| - 1;
      QueuedRun(c, steps[..last]);
      FullerQueue(c, After(c, steps[..last]), steps[last]);
    }
  }

  // With room for two completions per QP there is no overrun.
  lemma NoOverrun(c: Config, steps: seq<Step>)
    requires 2 * c.n <= CqEntries(c) && QueuedLegal(c, steps)
    ensures !QueuedAfter(c, steps).overrun
  {
    QueuedRun(c, steps);
    CompletionBound(c, steps, Client);
    CompletionBound(c, steps, Server);
  }

  // A run of the protocol either fits the queues, or overruns one after some prefix.
  lemma {:induction false} FitsOrOverruns(c: Config, steps: seq<Step>) returns (m: nat)
    requires Legal(c, steps)
    ensures m <= |steps| && QueuedLegal(c, steps[..m])
    ensures m < |steps| ==> QueuedAfter(c, steps[..m]).overrun
  {
    if steps == [] {
      m := 0;
    } else {
      var last := |steps| - 1;
      m := FitsOrOverruns(c, steps[..last]);
      assert steps[..last][..m] == steps[..m];
      if !QueuedAfter(c, steps[..m]).overrun {
        QueuedRun(c, steps[..last]);
        m := |steps|;
        assert steps[..m] == steps;
      }
    }
  }

  // With more QPs some run overruns the client's queue.
  lemma SomeOverrun(c: Config) returns (steps: seq<Step>)
    requires 2 * c.n > CqEntries(c)
    ensures QueuedLegal(c, steps) && QueuedAfter(c, steps).overrun
  {
    var peak := PeakIsReached(c);
    var m := FitsOrOverruns(c, peak);
    steps := peak[..m];
    if m == |peak| {
      assert steps == peak;
      QueuedRun(c, peak);
    }
  }

  // A queue was overrun, or a program has taken an error return.
  predicate Fails(q: Queued) {
    q.overrun || q.proto.client.host.failed || q.proto.server.host.failed
  }

  ghost predicate NoRunFails(c: Config) {
    forall steps :: QueuedLegal(c, steps) ==> !Fails(QueuedAfter(c, steps))
  }

  /** No run fails, by an overrun or an error return, if and only if `2 * n <= rx_depth + 1`. */
  lemma NoRunFailsExactly(c: Config)
    ensures NoRunFails(c) <==> 2 * c.n <= c.rxDepth + 1
  {
    if 2 * c.n <= CqEntries(c) {
      forall steps | QueuedLegal(c, steps)
        ensures !Fails(QueuedAfter(c, steps))
      {
        NoOverrun(c, steps);
        QueuedRun(c, steps);
        NeverFails(c, steps, Client);
        NeverFails(c, steps, Server);
      }
    } else {
      var steps := SomeOverrun(c);
      assert Fails(QueuedAfter(c, steps));
    }
  }

  // A finished run: nothing can happen any more, and both ends have left their loops.
  ghost predicate QueuedFinished(c: Config, steps: seq<Step>) {
    && QueuedLegal(c, steps)
    && !Fails(QueuedAfter(c, steps))
    && Done(c, QueuedAfter(c, steps).proto.client.host)
    && Done(c, QueuedAfter(c, steps).proto.server.host)
    && forall step :: !QueuedEnabled(c, QueuedAfter(c, steps), step)
  }

  ghost predicate RunsComplete(c: Config) {
    forall steps :: QueuedLegal(c, steps) ==> exists all :: steps <= all && QueuedFinished(c, all)
  }

  lemma FittingRunCompletes(c: Config, steps: seq<Step>)
    requires 2 * c.n <= CqEntries(c) && QueuedLegal(c, steps)
    ensures exists all :: steps <= all && QueuedFinished(c, all)
  {
    QueuedRun(c, steps);
    var all := EveryRunCompletes(c, steps);
    var m := FitsOrOverruns(c, all);
    NoOverrun(c, all[..m]);
    assert all[..m] == all;
    QueuedRun(c, all);
    NeverFails(c, all, Client);
    NeverFails(c, all, Server);
    assert QueuedFinished(c, all);
  }

  lemma NoStepAfterOverrun(c: Config, steps: seq<Step>)
    requires QueuedLegal(c, steps) && steps != []
    ensures QueuedLegal(c, steps[..|steps| - 1])
    ensures !QueuedAfter(c, steps[..|steps| - 1]).overrun
  {
  }

  // After an overrun nothing happens any more.
  lemma {:induction false} OverrunIsLast(c: Config, steps: seq<Step>, m: nat)
    requires QueuedLegal(c, steps) && m <= |steps|
    requires QueuedLegal(c, steps[..m]) && QueuedAfter(c, steps[..m]).overrun
    ensures m == |steps|
  {
    if m < |steps| {
      var last := |steps| - 1;
      assert steps[..last][..m] == steps[..m];
      NoStepAfterOverrun(c, steps);
      OverrunIsLast(c, steps[..last], m);
    }
  }

  lemma OverrunNeverCompletes(c: Config, steps: seq<Step>, all: seq<Step>)
    requires QueuedLegal(c, steps) && QueuedAfter(c, steps).overrun && steps <= all
    ensures !QueuedFinished(c, all)
  {
    if QueuedLegal(c, all) {
      assert all[..|steps|] == steps;
      OverrunIsLast(c, all, |steps|);
      assert all == steps;
    }
  }

  /** Every run can be continued to a finished one if and only if `2 * n <= rx_depth + 1`. */
  lemma RunsCompleteExactly(c: Config)
    ensures RunsComplete(c) <==> 2 * c.n <= c.rxDepth + 1
  {
    if 2 * c.n <= CqEntries(c) {
      forall steps | QueuedLegal(c, steps)
        ensures exists all :: steps <= all && QueuedFinished(c, all)
      {
        FittingRunCompletes(c, steps);
      }
    } else {
      var steps := SomeOverrun(c);
      forall all | steps <= all
        ensures !QueuedFinished(c, all)
      {
        OverrunNeverCompletes(c, steps, all);
      }
    }
  }
}
