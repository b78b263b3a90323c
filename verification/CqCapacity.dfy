/**
 The completion queue is created with `rx_depth + 1` entries for all QPs together.
 That is enough on every run exactly when two completions per QP fit.
 */
module CqCapacity {
  import opened Protocol
  import opened Invariant
  import opened Theorems

  // The receive completions of the QPs from `from` to `n`, in order.
  predicate InOrder(ws: seq<Wc>, from: nat, n: nat) {
    from + |ws| == n && forall i :: 0 <= i < |ws| ==> ws[i] == Wc(from + i, Recv)
  }

  // The first `j` of the client's opening sends are delivered and acknowledged, and
  // neither program has moved.
  ghost predicate Opened(c: Config, s: State, j: nat)
    requires j <= c.n
  {
    && Shaped(c, s.client)
    && |s.client.cq| == j
    && (forall k :: j <= k < c.n ==> s.client.ports[k].outgoing == 1)
    && InOrder(s.server.cq, 0, j)
    && s.server.batch == []
    && s.server.host == InitHost(c, Server)
  }

  lemma OpenDeliver(c: Config, prefix: seq<Step>, k: nat) returns (steps: seq<Step>)
    requires Legal(c, prefix) && k < c.n && Opened(c, After(c, prefix), k)
    ensures Legal(c, steps)
    ensures var s, t := After(c, prefix), After(c, steps);
            && Inv(c, t)
            && t.client == Delivered(s.client, k)
            && InOrder(t.server.cq, 0, k + 1)
            && t.server.batch == []
            && t.server.host == InitHost(c, Server)
  {
    CreditsSuffice(c, prefix, Client, k);
    steps := prefix + [Deliver(Client, k)];
    Extend(c, prefix, Deliver(Client, k));
    InvHolds(c, steps);
  }

  lemma {:induction false} OpeningSends(c: Config, j: nat) returns (steps: seq<Step>)
    requires j <= c.n
    ensures Legal(c, steps) && Opened(c, After(c, steps), j)
  {
    if j == 0 {
      steps := [];
      InitOk(c);
    } else {
      var prefix := OpeningSends(c, j - 1);
      var sent := OpenDeliver(c, prefix, j - 1);
      Extend(c, sent, Ack(Client, j - 1));
      steps := sent + [Ack(Client, j - 1)];
      InvHolds(c, steps);
    }
  }

  // The server has answered on the first `j` QPs, and the answers have arrived.
  ghost predicate Answered(c: Config, s: State, j: nat)
    requires j <= c.n
  {
    && Shaped(c, s.server)
    && |s.client.cq| == c.n + j
    && InOrder(s.server.batch, j, c.n)
    && s.server.host.scnt == 0
    && (forall k :: j <= k < c.n ==> s.server.host.qps[k] == Local(true, false, c.rxDepth))
  }

  ghost predicate AnsweredRun(c: Config, steps: seq<Step>, j: nat)
    requires j <= c.n
  {
    Legal(c, steps) && Answered(c, After(c, steps), j)
  }

  lemma FirstPoll(c: Config) returns (steps: seq<Step>)
    ensures AnsweredRun(c, steps, 0)
  {
    var prefix := OpeningSends(c, c.n);
    Extend(c, prefix, Poll(Server, c.n));
    steps := prefix + [Poll(Server, c.n)];
    InvHolds(c, steps);
  }

  lemma AnswerPosted(c: Config, prefix: seq<Step>, j: nat) returns (posted: seq<Step>)
    requires j < c.n && AnsweredRun(c, prefix, j)
    ensures Legal(c, posted)
    ensures After(c, posted) == After(c, prefix).(server := Processed(c, After(c, prefix).server))
    ensures Enabled(c, After(c, posted), Deliver(Server, j))
  {
    InvHolds(c, prefix);
    ServerAnswers(c, After(c, prefix), j);
    Extend(c, prefix, Process(Server));
    posted := prefix + [Process(Server)];
    CreditsSuffice(c, posted, Server, j);
  }

  lemma AnswerArrives(c: Config, prefix: seq<Step>, j: nat) returns (steps: seq<Step>)
    requires j < c.n && AnsweredRun(c, prefix, j)
    ensures AnsweredRun(c, steps, j + 1)
  {
    var posted := AnswerPosted(c, prefix, j);
    InvHolds(c, prefix);
    ServerAnswers(c, After(c, prefix), j);
    Extend(c, posted, Deliver(Server, j));
    steps := posted + [Deliver(Server, j)];
    InvHolds(c, steps);
  }

  lemma {:induction false} Answers(c: Config, j: nat) returns (steps: seq<Step>)
    requires j <= c.n
    ensures AnsweredRun(c, steps, j)
  {
    if j == 0 {
      steps := FirstPoll(c);
    } else {
      var i := j - 1;
      var prefix := Answers(c, i);
      steps := AnswerArrives(c, prefix, i);
    }
  }

  // Handling the receive on QP `j` posts the answer.
  lemma ServerAnswers(c: Config, s: State, j: nat)
    requires j < c.n && Inv(c, s) && Answered(c, s, j)
    ensures Enabled(c, s, Process(Server))
    ensures var e := Processed(c, s.server);
            && e.ports[j].outgoing > 0
            && InOrder(e.batch, j + 1, c.n)
            && e.host.scnt == 0
            && forall k :: j < k < c.n ==> e.host.qps[k] == Local(true, false, c.rxDepth)
  {
    assert s.server.batch[0] == Wc(j, Recv);
    Flip(c, s.client, s.server, 0);
    assert LinkOk(c, s.server, s.client, 1, j);
    ProcessSucceeds(c, s.server, s.client);
  }

  /** Whatever the number of QPs, the client's queue can come to hold two completions for each. */
  lemma PeakIsReached(c: Config) returns (steps: seq<Step>)
    ensures Legal(c, steps) && |After(c, steps).client.cq| == 2 * c.n
  {
    steps := Answers(c, c.n);
  }

  ghost predicate NeverOverflows(c: Config) {
    forall steps, side :: Legal(c, steps) ==> |After(c, steps).At(side).cq| <= c.rxDepth + 1
  }

  /** The completion queues never overflow if and only if `2 * n <= rx_depth + 1`. */
  lemma NeverOverflowsExactly(c: Config)
    ensures NeverOverflows(c) <==> 2 * c.n <= c.rxDepth + 1
  {
    if 2 * c.n <= c.rxDepth + 1 {
      forall steps, side | Legal(c, steps)
        ensures |After(c, steps).At(side).cq| <= c.rxDepth + 1
      {
        CompletionBound(c, steps, side);
      }
    } else {
      var steps := PeakIsReached(c);
      assert |After(c, steps).At(Client).cq| == 2 * c.n;
    }
  }
}
