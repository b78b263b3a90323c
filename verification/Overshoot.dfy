/**
 The overshoot of the shared counters is not only bounded but reached: some run ends with
 the client having handled `iters + n - 1` SEND completions. On all QPs but the first the
 opening send stays on the wire while the first QP alone makes the exchanges.
 */
module Overshoot {
  import opened Protocol
  import opened Invariant
  import opened Theorems
  import opened Termination

  predicate OnlyFirst(e: End) {
    && (forall w :: w in e.cq ==> w.qp == 0)
    && (forall w :: w in e.batch ==> w.qp == 0)
  }

  // Nothing has happened on the other QPs since the opening sends, and the client has not
  // sent on the first more often than its loop may, the last time just now.
  predicate Alone(c: Config, s: State) {
    && Shaped(c, s.client)
    && Shaped(c, s.server)
    && OnlyFirst(s.client)
    && OnlyFirst(s.server)
    && s.client.ports[1..] == InitEnd(c, Client).ports[1..]
    && s.server.ports[1..] == InitEnd(c, Server).ports[1..]
    && s.client.ports[0].sent <= c.iters
    && (s.client.ports[0].sent == c.iters ==> s.client.ports[0].outgoing > 0)
  }

  // The totals are those of the first QP and the opening sends.
  lemma AloneSums(c: Config, s: State)
    requires Inv(c, s) && Alone(c, s)
    ensures s.client.host.scnt == s.client.ports[0].acked
    ensures s.server.host.scnt == s.server.ports[0].acked
    ensures Sum(s.client.ports, Sent) == s.client.ports[0].sent + c.n - 1
    ensures Sum(s.server.ports, Sent) == s.server.ports[0].sent
  {
    SumConstant(s.client.ports[1..], Sent, 1);
    SumConstant(s.client.ports[1..], Acked, 0);
    SumConstant(s.server.ports[1..], Sent, 0);
    SumConstant(s.server.ports[1..], Acked, 0);
  }

  // Steps that leave the other QPs alone.
  predicate OnFirst(step: Step) {
    step.Deliver? ==> step.k == 0
  }

  lemma AloneStep(c: Config, s: State, step: Step)
    requires Alone(c, s) && s.client.ports[0].sent < c.iters
    requires Enabled(c, s, step) && OnFirst(step)
    ensures Alone(c, Apply(c, s, step))
  {
    match step
    case Deliver(_, _) =>
    case Ack(side, k) =>
      var ports := s.At(side).ports;
      assert ports == [ports[0]] + ports[1..];
    case Poll(_, _) =>
    case Process(side) =>
      var e := s.At(side);
      ProcessShaped(c, e);
      assert e.batch[0] in e.batch;
      assert forall w :: w in e.batch[1..] ==> w in e.batch;
      assert Processed(c, e).ports[1..] == e.ports[1..];
  }

  // Until the client has sent `iters` times on the first QP, its turn is with one of the
  // programs only when something is left to handle.
  lemma FirstIsBusy(c: Config, s: State)
    requires Inv(c, s) && Alone(c, s) && s.client.ports[0].sent < c.iters
    requires s.client.cq == [] && s.client.batch == [] && s.server.cq == [] && s.server.batch == []
    ensures exists side: Side :: s.At(side).ports[0].outgoing > 0 || s.At(side).ports[0].unacked > 0
  {
    AloneSums(c, s);
    assert LinkOk(c, s.client, s.server, 0, 0);
    assert s.At(Client) == s.client && s.At(Server) == s.server;
  }

  lemma FirstCanMove(c: Config, steps: seq<Step>)
    requires Legal(c, steps) && Alone(c, After(c, steps))
    requires After(c, steps).client.ports[0].sent < c.iters
    ensures exists step :: Enabled(c, After(c, steps), step) && OnFirst(step)
  {
    var s := After(c, steps);
    InvHolds(c, steps);
    FirstIsNotDone(c, s);
    if side :| s.At(side).batch != [] {
      assert Enabled(c, s, Process(side));
    } else if side :| s.At(side).cq != [] {
      assert Enabled(c, s, Poll(side, 1));
    } else {
      assert s.At(Client) == s.client && s.At(Server) == s.server;
      FirstIsBusy(c, s);
      var side :| s.At(side).ports[0].outgoing > 0 || s.At(side).ports[0].unacked > 0;
      CreditsSuffice(c, steps, side, 0);
      assert Enabled(c, s, Deliver(side, 0)) || Enabled(c, s, Ack(side, 0));
    }
  }

  lemma FirstIsNotDone(c: Config, s: State)
    requires Inv(c, s) && Alone(c, s) && s.client.ports[0].sent < c.iters
    ensures forall side: Side :: !s.At(side).host.failed && !Done(c, s.At(side).host)
  {
    AloneSums(c, s);
    assert LinkOk(c, s.client, s.server, 0, 0);
  }

  lemma {:induction false} FirstExchanges(c: Config, steps: seq<Step>, bound: nat) returns (all: seq<Step>)
    requires Legal(c, steps) && Alone(c, After(c, steps)) && Measure(c, After(c, steps), true) <= bound
    ensures Legal(c, all) && Alone(c, After(c, all)) && After(c, all).client.ports[0].sent == c.iters
    decreases bound
  {
    var s := After(c, steps);
    if s.client.ports[0].sent == c.iters {
      all := steps;
    } else {
      FirstCanMove(c, steps);
      var step :| Enabled(c, s, step) && OnFirst(step);
      Extend(c, steps, step);
      StepMakesProgress(c, steps, step);
      AloneStep(c, s, step);
      all := FirstExchanges(c, steps + [step], bound - 1);
    }
  }

  // As many sends are out as there can be, and the server has not answered the last.
  predicate AllSent(c: Config, s: State) {
    && Sum(s.client.ports, Sent) == c.iters + c.n - 1
    && Sum(s.server.ports, Sent) == c.iters - 1
  }

  lemma AloneIsAllSent(c: Config, s: State)
    requires Inv(c, s) && Alone(c, s) && s.client.ports[0].sent == c.iters
    ensures AllSent(c, s)
  {
    AloneSums(c, s);
    assert LinkOk(c, s.client, s.server, 0, 0);
  }

  // Steps while the server's program rests.
  predicate ServerRests(step: Step) {
    (step.Poll? || step.Process?) ==> step.side == Client
  }

  lemma PortSent(ports: seq<Port>, k: nat, p: Port)
    requires k < |ports| && p.sent == ports[k].sent
    ensures Sum(ports[k := p], Sent) == Sum(ports, Sent)
  {
    SumUpdate(ports, k, p, Sent);
  }

  lemma AllSentStep(c: Config, s: State, step: Step)
    requires Inv(c, s) && AllSent(c, s) && Enabled(c, s, step) && ServerRests(step)
    ensures AllSent(c, Apply(c, s, step))
  {
    StepOk(c, s, step);
    match step
    case Deliver(from, k) =>
      PortSent(s.At(from).ports, k, Delivered(s.At(from), k).ports[k]);
      PortSent(s.At(from.Peer()).ports, k, Arrived(s.At(from.Peer()), k).ports[k]);
    case Ack(side, k) =>
      PortSent(s.At(side).ports, k, Acknowledged(s.At(side), k).ports[k]);
    case Poll(_, _) =>
    case Process(_) =>
      ProcessSums(c, s.client);
  }

  // The client stays in its loop, and when nothing can move has handled all its sends.
  lemma AllSentCanMove(c: Config, steps: seq<Step>)
    requires Legal(c, steps) && AllSent(c, After(c, steps))
    ensures After(c, steps).client.host.scnt == c.iters + c.n - 1
            || exists step :: Enabled(c, After(c, steps), step) && ServerRests(step)
  {
    var s := After(c, steps);
    InvHolds(c, steps);
    ReceivedAtMostSent(c, s.client, s.server, 0);
    if s.client.batch != [] {
      assert Enabled(c, s, Process(Client));
    } else if s.client.cq != [] {
      assert Enabled(c, s, Poll(Client, 1));
    } else {
      QuietOrMoves(c, steps);
    }
  }

  lemma QuietOrMoves(c: Config, steps: seq<Step>)
    requires Legal(c, steps) && After(c, steps).client.batch == After(c, steps).client.cq == []
    ensures After(c, steps).client.host.scnt == Sum(After(c, steps).client.ports, Sent)
            || exists step :: Enabled(c, After(c, steps), step) && ServerRests(step)
  {
    var s := After(c, steps);
    InvHolds(c, steps);
    if k: nat :| k < c.n && s.client.ports[k].outgoing > 0 {
      CreditsSuffice(c, steps, Client, k);
      assert Enabled(c, s, Deliver(Client, k));
    } else if k: nat :| k < c.n && s.client.ports[k].unacked > 0 {
      assert Enabled(c, s, Ack(Client, k));
    } else {
      forall k | 0 <= k < c.n
        ensures s.client.ports[k].acked == s.client.ports[k].sent
      {
        assert LinkOk(c, s.client, s.server, 0, k);
      }
      SumMonotone(s.client.ports, Acked, s.client.ports, Sent);
      SumMonotone(s.client.ports, Sent, s.client.ports, Acked);
    }
  }

  lemma {:induction false} AllHandled(c: Config, steps: seq<Step>, bound: nat) returns (all: seq<Step>)
    requires Legal(c, steps) && AllSent(c, After(c, steps)) && Measure(c, After(c, steps), true) <= bound
    ensures Legal(c, all) && After(c, all).client.host.scnt == c.iters + c.n - 1
    decreases bound
  {
    var s := After(c, steps);
    if s.client.host.scnt == c.iters + c.n - 1 {
      all := steps;
    } else {
      AllSentCanMove(c, steps);
      var step :| Enabled(c, s, step) && ServerRests(step);
      Extend(c, steps, step);
      StepMakesProgress(c, steps, step);
      InvHolds(c, steps);
      AllSentStep(c, s, step);
      all := AllHandled(c, steps + [step], bound - 1);
    }
  }

  lemma CounterGrows(c: Config, s: State, step: Step)
    requires Enabled(c, s, step)
    ensures Apply(c, s, step).client.host.scnt >= s.client.host.scnt
  {
  }

  lemma {:induction false} CounterKept(c: Config, steps: seq<Step>, all: seq<Step>)
    requires Legal(c, steps) && Legal(c, all) && steps <= all
    ensures After(c, all).client.host.scnt >= After(c, steps).client.host.scnt
    decreases |all|
  {
    if |steps| < |all| {
      var last := |all| - 1;
      CounterKept(c, steps, all[..last]);
      CounterGrows(c, After(c, all[..last]), all[last]);
    } else {
      assert steps == all;
    }
  }

  lemma StartsAlone(c: Config)
    ensures Legal(c, []) && Inv(c, Init(c)) && Alone(c, Init(c)) && Measure(c, Init(c), true) >= 0
  {
    InitOk(c);
    MeasureNonNegative(c, Init(c), true);
  }

  /** For every configuration some run ends with the client at `iters + n - 1` SEND completions. */
  lemma OvershootIsReached(c: Config) returns (all: seq<Step>)
    ensures Finished(c, all) && After(c, all).client.host.scnt == c.iters + c.n - 1
  {
    StartsAlone(c);
    var sent := FirstExchanges(c, [], Measure(c, Init(c), true));
    InvHolds(c, sent);
    AloneIsAllSent(c, After(c, sent));
    MeasureNonNegative(c, After(c, sent), true);
    var handled := AllHandled(c, sent, Measure(c, After(c, sent), true));
    all := EveryRunCompletes(c, handled);
    CounterKept(c, handled, all);
    BoundedOvershoot(c, all, Client);
  }
}
