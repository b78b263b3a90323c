/**
 The joint invariant of both ends, the wire and the completion queues, and the
 proof that every run keeps it.
 */
module Invariant {
  import opened Protocol

  function Bit(b: bool): nat {
    if b then 1 else 0
  }

  // Completions of kind `id` for QP `k` that the end has not handled yet.
  function Unhandled(e: End, k: nat, id: WrId): nat {
    multiset(e.cq)[Wc(k, id)] + multiset(e.batch)[Wc(k, id)]
  }

  function Sum(ports: seq<Port>, f: Field): nat {
    if ports == [] then 0 else ports[0].Get(f) + Sum(ports[1..], f)
  }

  lemma {:induction false} SumUpdate(ports: seq<Port>, k: nat, p: Port, f: Field)
    requires k < |ports|
    ensures Sum(ports[k := p], f) == Sum(ports, f) - ports[k].Get(f) + p.Get(f)
  {
    if k == 0 {
      assert ports[0 := p][1..] == ports[1..];
    } else {
      assert ports[k := p][1..] == ports[1..][k - 1 := p];
      SumUpdate(ports[1..], k - 1, p, f);
    }
  }

  lemma {:induction false} SumMonotone(a: seq<Port>, f: Field, b: seq<Port>, g: Field)
    requires |a| == |b|
    requires forall k :: 0 <= k < |a| ==> a[k].Get(f) <= b[k].Get(g)
    ensures Sum(a, f) <= Sum(b, g)
  {
    if a != [] {
      SumMonotone(a[1..], f, b[1..], g);
    }
  }

  // If each term of one sum exceeds the other's by at most one, and the k-th does not,
  // the sums differ by at most the number of terms less one.
  lemma {:induction false} SumSlack(ports: seq<Port>, k: nat)
    requires forall j :: 0 <= j < |ports| ==> ports[j].sent <= ports[j].acked + 1
    requires k < |ports| ==> ports[k].sent <= ports[k].acked
    ensures Sum(ports, Sent) <= Sum(ports, Acked) + |ports| - Bit(k < |ports|)
  {
    if ports != [] {
      SumSlack(ports[1..], if k == 0 then |ports| else k - 1);
    }
  }

  // What one end keeps about QP `k`, given its peer.
  predicate QpOk(c: Config, me: End, peer: End, k: nat)
    requires Shaped(c, me) && Shaped(c, peer) && k < c.n
  {
    var l, p, q := me.host.qps[k], me.ports[k], peer.ports[k];
    && Bit(l.sendBit) == p.outgoing + p.unacked + Unhandled(me, k, Send)
    && p.sent == p.acked + Bit(l.sendBit)
    && p.credits + Unhandled(me, k, Recv) == l.routs
    && 1 <= l.routs <= c.rxDepth
    && p.got + Unhandled(me, k, Recv) + q.outgoing == q.sent
    && (!l.recvBit && !l.sendBit ==> me.host.scnt >= c.iters)
  }

  // Where the turn to send on QP `k` can be once `from` has sent: the message is on
  // the wire, or at `to` and unhandled, or handled and not yet answered.
  function TurnPassed(from: End, to: End, k: nat): nat
    requires k < |from.ports| && k < |to.host.qps|
  {
    from.ports[k].outgoing + Unhandled(to, k, Recv) + Bit(!to.host.qps[k].recvBit)
  }

  // QP `k` seen from both ends. The turn is in exactly one place, and `a` is ahead of
  // `b` by one send exactly when `a` has passed the turn; the server starts a turn behind.
  predicate LinkOk(c: Config, a: End, b: End, behind: nat, k: nat)
    requires Shaped(c, a) && Shaped(c, b) && k < c.n
  {
    && QpOk(c, a, b, k)
    && QpOk(c, b, a, k)
    && TurnPassed(a, b, k) + TurnPassed(b, a, k) == 1
    && a.ports[k].sent - b.ports[k].sent == TurnPassed(a, b, k) - behind
  }

  predicate CountersOk(c: Config, e: End) {
    && !e.host.failed
    && e.host.scnt == Sum(e.ports, Acked)
    && e.host.rcnt == Sum(e.ports, Got)
    && Sum(e.ports, Sent) <= c.iters + c.n - 1
  }

  predicate PairOk(c: Config, a: End, b: End, behind: nat) {
    && Shaped(c, a)
    && Shaped(c, b)
    && CountersOk(c, a)
    && CountersOk(c, b)
    && forall k :: 0 <= k < c.n ==> LinkOk(c, a, b, behind, k)
  }

  function Behind(side: Side): nat {
    if side == Client then 0 else 1
  }

  predicate Inv(c: Config, s: State) {
    PairOk(c, s.client, s.server, 0)
  }

  // The invariant reads the same from either end.
  lemma Flip(c: Config, a: End, b: End, behind: nat)
    requires behind <= 1 && PairOk(c, a, b, behind)
    ensures PairOk(c, b, a, 1 - behind)
  {
    var other := 1 - behind;
    forall k | 0 <= k < c.n
      ensures LinkOk(c, b, a, other, k)
    {
      assert LinkOk(c, a, b, behind, k);
    }
  }

  lemma {:induction false} SumConstant(ports: seq<Port>, f: Field, v: nat)
    requires forall k :: 0 <= k < |ports| ==> ports[k].Get(f) == v
    ensures Sum(ports, f) == |ports| * v
  {
    if ports != [] {
      SumConstant(ports[1..], f, v);
    }
  }

  lemma InitOk(c: Config)
    ensures Inv(c, Init(c))
  {
    var s := Init(c);
    SumConstant(s.client.ports, Sent, 1);
    SumConstant(s.client.ports, Acked, 0);
    SumConstant(s.client.ports, Got, 0);
    SumConstant(s.server.ports, Sent, 0);
    SumConstant(s.server.ports, Acked, 0);
    SumConstant(s.server.ports, Got, 0);
  }

  lemma SumsUnchanged(ports: seq<Port>, k: nat, p: Port)
    requires k < |ports|
    requires p.sent == ports[k].sent && p.acked == ports[k].acked && p.got == ports[k].got
    ensures Sum(ports[k := p], Sent) == Sum(ports, Sent)
    ensures Sum(ports[k := p], Acked) == Sum(ports, Acked)
    ensures Sum(ports[k := p], Got) == Sum(ports, Got)
  {
    SumUpdate(ports, k, p, Sent);
    SumUpdate(ports, k, p, Acked);
    SumUpdate(ports, k, p, Got);
  }

  lemma DeliverLinkOk(c: Config, a: End, b: End, behind: nat, k: nat, j: nat)
    requires Shaped(c, a) && Shaped(c, b) && k < c.n && j < c.n
    requires a.ports[k].outgoing > 0 && b.ports[k].credits > 0
    requires LinkOk(c, a, b, behind, j)
    ensures Shaped(c, Delivered(a, k)) && Shaped(c, Arrived(b, k))
    ensures LinkOk(c, Delivered(a, k), Arrived(b, k), behind, j)
  {
    var b' := Arrived(b, k);
    assert Unhandled(b', j, Recv) == Unhandled(b, j, Recv) + Bit(j == k);
    assert Unhandled(b', j, Send) == Unhandled(b, j, Send);
  }

  lemma DeliverOk(c: Config, a: End, b: End, behind: nat, k: nat)
    requires PairOk(c, a, b, behind) && k < c.n
    requires a.ports[k].outgoing > 0 && b.ports[k].credits > 0
    ensures PairOk(c, Delivered(a, k), Arrived(b, k), behind)
  {
    var a', b' := Delivered(a, k), Arrived(b, k);
    SumsUnchanged(a.ports, k, a'.ports[k]);
    SumsUnchanged(b.ports, k, b'.ports[k]);
    forall j | 0 <= j < c.n
      ensures Shaped(c, a') && Shaped(c, b') && LinkOk(c, a', b', behind, j)
    {
      assert LinkOk(c, a, b, behind, j);
      DeliverLinkOk(c, a, b, behind, k, j);
    }
  }

  lemma AckLinkOk(c: Config, a: End, b: End, behind: nat, k: nat, j: nat)
    requires Shaped(c, a) && Shaped(c, b) && k < c.n && j < c.n
    requires a.ports[k].unacked > 0
    requires LinkOk(c, a, b, behind, j)
    ensures Shaped(c, Acknowledged(a, k))
    ensures LinkOk(c, Acknowledged(a, k), b, behind, j)
  {
    var a' := Acknowledged(a, k);
    assert Unhandled(a', j, Send) == Unhandled(a, j, Send) + Bit(j == k);
    assert Unhandled(a', j, Recv) == Unhandled(a, j, Recv);
  }

  lemma AckOk(c: Config, a: End, b: End, behind: nat, k: nat)
    requires PairOk(c, a, b, behind) && k < c.n
    requires a.ports[k].unacked > 0
    ensures PairOk(c, Acknowledged(a, k), b, behind)
  {
    var a' := Acknowledged(a, k);
    SumsUnchanged(a.ports, k, a'.ports[k]);
    forall j | 0 <= j < c.n
      ensures Shaped(c, a') && LinkOk(c, a', b, behind, j)
    {
      assert LinkOk(c, a, b, behind, j);
      AckLinkOk(c, a, b, behind, k, j);
    }
  }

  lemma PollUnhandled(e: End, count: nat, j: nat, id: WrId)
    requires e.batch == [] && count <= |e.cq|
    ensures Unhandled(Polled(e, count), j, id) == Unhandled(e, j, id)
  {
    assert e.cq == e.cq[..count] + e.cq[count..];
  }

  lemma PollOk(c: Config, a: End, b: End, behind: nat, count: nat)
    requires PairOk(c, a, b, behind)
    requires a.batch == [] && count <= |a.cq|
    ensures PairOk(c, Polled(a, count), b, behind)
  {
    var a' := Polled(a, count);
    forall j | 0 <= j < c.n
      ensures Shaped(c, a') && LinkOk(c, a', b, behind, j)
    {
      assert LinkOk(c, a, b, behind, j);
      PollUnhandled(a, count, j, Send);
      PollUnhandled(a, count, j, Recv);
    }
  }

  lemma PopUnhandled(e: End, e': End, j: nat, id: WrId)
    requires e.batch != [] && e'.batch == e.batch[1..] && e'.cq == e.cq
    ensures Unhandled(e, j, id) == Unhandled(e', j, id) + Bit(e.batch[0] == Wc(j, id))
  {
    assert e.batch == [e.batch[0]] + e.batch[1..];
  }

  // The counters after one handled completion, when the program does not give up.
  lemma ProcessSums(c: Config, e: End)
    requires Shaped(c, e) && e.batch != []
    ensures var e' := Processed(c, e);
            && Sum(e'.ports, Acked) == Sum(e.ports, Acked) + Bit(e.batch[0].id == Send)
            && Sum(e'.ports, Got) == Sum(e.ports, Got) + Bit(e.batch[0].id == Recv)
            && Sum(e'.ports, Sent)
               == Sum(e.ports, Sent) + Bit(Handle(c, e.host, ItemOf(c, e, e.batch[0])).sent)
  {
    var k := e.batch[0].qp;
    var q := Processed(c, e).ports[k];
    SumUpdate(e.ports, k, q, Acked);
    SumUpdate(e.ports, k, q, Got);
    SumUpdate(e.ports, k, q, Sent);
  }

  // Every post the program tries while handling a completion succeeds.
  lemma ProcessSucceeds(c: Config, me: End, peer: End)
    requires Shaped(c, me) && Shaped(c, peer) && me.batch != []
    requires me.batch[0].qp < c.n && QpOk(c, me, peer, me.batch[0].qp) && !me.host.failed
    ensures !Processed(c, me).host.failed
    ensures var k := me.batch[0].qp;
            var l, l' := me.host.qps[k], Processed(c, me).host.qps[k];
            me.batch[0].id == Recv ==> l'.routs == if l.routs <= 2 then c.rxDepth else l.routs - 1
  {
    PopUnhandled(me, Processed(c, me), me.batch[0].qp, me.batch[0].id);
  }

  lemma ProcessShaped(c: Config, me: End)
    requires Shaped(c, me) && me.batch != []
    ensures Shaped(c, Processed(c, me))
    ensures me.batch[0].qp < c.n
  {
    assert me.batch[0] in me.batch;
    assert forall x :: x in me.batch[1..] ==> x in me.batch;
  }

  lemma ProcessQpOk(c: Config, me: End, peer: End, j: nat)
    requires Shaped(c, me) && Shaped(c, peer) && me.batch != [] && j < c.n && !me.host.failed
    requires me.batch[0].qp < c.n && QpOk(c, me, peer, me.batch[0].qp)
    requires QpOk(c, me, peer, j)
    ensures Shaped(c, Processed(c, me))
    ensures QpOk(c, Processed(c, me), peer, j)
  {
    var me' := Processed(c, me);
    ProcessShaped(c, me);
    ProcessSucceeds(c, me, peer);
    PopUnhandled(me, me', j, Send);
    PopUnhandled(me, me', j, Recv);
  }

  // Handling a RECV takes the turn; posting a send passes it on.
  lemma ProcessTurnOk(c: Config, me: End, peer: End, j: nat)
    requires Shaped(c, me) && Shaped(c, peer) && me.batch != [] && j < c.n && !me.host.failed
    requires me.batch[0].qp < c.n && QpOk(c, me, peer, me.batch[0].qp)
    requires TurnPassed(me, peer, j) + TurnPassed(peer, me, j) == 1
    ensures Shaped(c, Processed(c, me))
    ensures var me' := Processed(c, me);
            && TurnPassed(me', peer, j) + TurnPassed(peer, me', j) == 1
            && me'.ports[j].sent - me.ports[j].sent
               == TurnPassed(me', peer, j) - TurnPassed(me, peer, j)
            && me'.ports[j].sent - me.ports[j].sent
               == me'.ports[j].outgoing - me.ports[j].outgoing
  {
    ProcessShaped(c, me);
    ProcessSucceeds(c, me, peer);
    PopUnhandled(me, Processed(c, me), j, Recv);
  }

  lemma ProcessLinkOk(c: Config, me: End, peer: End, behind: nat, j: nat)
    requires Shaped(c, me) && Shaped(c, peer) && me.batch != [] && j < c.n && !me.host.failed
    requires me.batch[0].qp < c.n && QpOk(c, me, peer, me.batch[0].qp)
    requires LinkOk(c, me, peer, behind, j)
    ensures Shaped(c, Processed(c, me))
    ensures LinkOk(c, Processed(c, me), peer, behind, j)
  {
    ProcessQpOk(c, me, peer, j);
    ProcessTurnOk(c, me, peer, j);
  }

  // A send is posted only while the counter is below `iters` and QP `k` has none
  // outstanding, so at most one more than the other QPs' sends can exceed `iters - 1`.
  lemma ProcessBudget(c: Config, me: End, peer: End)
    requires Shaped(c, me) && Shaped(c, peer) && CountersOk(c, me) && me.batch != []
    requires forall j :: 0 <= j < c.n ==> QpOk(c, me, peer, j)
    ensures Sum(Processed(c, me).ports, Sent) <= c.iters + c.n - 1
  {
    var w := me.batch[0];
    var k := w.qp;
    ProcessShaped(c, me);
    ProcessSums(c, me);
    if Handle(c, me.host, ItemOf(c, me, w)).sent {
      assert QpOk(c, me, peer, k);
      PopUnhandled(me, Processed(c, me), k, Send);
      var p := me.ports[k];
      var ports := me.ports[k := p.(acked := p.acked + Bit(w.id == Send))];
      SumUpdate(me.ports, k, ports[k], Sent);
      SumUpdate(me.ports, k, ports[k], Acked);
      forall j | 0 <= j < |ports|
        ensures ports[j].sent <= ports[j].acked + 1
      {
        assert QpOk(c, me, peer, j);
      }
      SumSlack(ports, k);
    }
  }

  lemma ProcessCountersOk(c: Config, me: End, peer: End)
    requires Shaped(c, me) && Shaped(c, peer) && CountersOk(c, me) && me.batch != []
    requires forall j :: 0 <= j < c.n ==> QpOk(c, me, peer, j)
    ensures CountersOk(c, Processed(c, me))
  {
    ProcessShaped(c, me);
    ProcessSums(c, me);
    ProcessBudget(c, me, peer);
    ProcessSucceeds(c, me, peer);
  }

  lemma ProcessOk(c: Config, a: End, b: End, behind: nat)
    requires PairOk(c, a, b, behind) && a.batch != []
    ensures PairOk(c, Processed(c, a), b, behind)
  {
    ProcessShaped(c, a);
    forall j | 0 <= j < c.n
      ensures QpOk(c, a, b, j) && LinkOk(c, Processed(c, a), b, behind, j)
    {
      assert LinkOk(c, a, b, behind, j) && LinkOk(c, a, b, behind, a.batch[0].qp);
      ProcessLinkOk(c, a, b, behind, j);
    }
    ProcessCountersOk(c, a, b);
  }

  lemma StepOk(c: Config, s: State, step: Step)
    requires Inv(c, s) && Enabled(c, s, step)
    ensures Inv(c, Apply(c, s, step))
  {
    Flip(c, s.client, s.server, 0);
    var t := Apply(c, s, step);
    match step {
      case Deliver(from, k) => DeliverOk(c, s.At(from), s.At(from.Peer()), Behind(from), k);
      case Ack(side, k) => AckOk(c, s.At(side), s.At(side.Peer()), Behind(side), k);
      case Poll(side, count) => PollOk(c, s.At(side), s.At(side.Peer()), Behind(side), count);
      case Process(side) => ProcessOk(c, s.At(side), s.At(side.Peer()), Behind(side));
    }
    if !PairOk(c, t.client, t.server, 0) {
      Flip(c, t.server, t.client, 1);
    }
  }

  /** Every state of every run satisfies the invariant. */
  lemma {:induction false} InvHolds(c: Config, steps: seq<Step>)
    requires Legal(c, steps)
    ensures Inv(c, After(c, steps))
  {
    if steps == [] {
      InitOk(c);
    } else {
      var last := |steps| - 1;
      InvHolds(c, steps[..last]);
      StepOk(c, After(c, steps[..last]), steps[last]);
    }
  }
}
