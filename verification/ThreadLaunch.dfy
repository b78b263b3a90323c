/**
 Which threads the two sides of the multi-threaded run start. A thread whose share of the
 message is zero bytes is skipped; the client's loop then advances its index twice.
 */
module ThreadLaunch {
  import opened BufferSplit

  // The thread indices from `from` on with a share, in order.
  function WithShare(shares: seq<nat>, from: nat): seq<nat>
    decreases |shares| - from
  {
    if from >= |shares| then []
    else if shares[from] == 0 then WithShare(shares, from + 1)
    else [from] + WithShare(shares, from + 1)
  }

  lemma {:induction false} WithShareHolds(shares: seq<nat>, from: nat, k: nat)
    ensures k in WithShare(shares, from) <==> from <= k < |shares| && shares[k] > 0
    decreases |shares| - from
  {
    if from < |shares| {
      WithShareHolds(shares, from + 1, k);
      assert k in [from] + WithShare(shares, from + 1) <==> k == from || k in WithShare(shares, from + 1);
    }
  }

  lemma {:induction false} WithShareGrows(shares: seq<nat>, from: nat, i: nat, j: nat)
    requires i < j < |WithShare(shares, from)|
    ensures WithShare(shares, from)[i] < WithShare(shares, from)[j]
    decreases |shares| - from
  {
    var rest := WithShare(shares, from + 1);
    if shares[from] == 0 {
      WithShareGrows(shares, from + 1, i, j);
    } else if i > 0 {
      WithShareGrows(shares, from + 1, i - 1, j - 1);
    } else {
      WithShareHolds(shares, from + 1, rest[j - 1]);
    }
  }

  /** These are exactly the threads with a nonzero share, each once and in order. */
  lemma WithShareIs(shares: seq<nat>)
    ensures forall k: nat :: k in WithShare(shares, 0) <==> k < |shares| && shares[k] > 0
    ensures forall i, j :: 0 <= i < j < |WithShare(shares, 0)| ==>
              WithShare(shares, 0)[i] < WithShare(shares, 0)[j]
  {
    forall k: nat
      ensures k in WithShare(shares, 0) <==> k < |shares| && shares[k] > 0
    {
      WithShareHolds(shares, 0, k);
    }
    forall i, j | 0 <= i < j < |WithShare(shares, 0)|
      ensures WithShare(shares, 0)[i] < WithShare(shares, 0)[j]
    {
      WithShareGrows(shares, 0, i, j);
    }
  }

  // The server's loop, when `connected` connections succeed before one fails: then the
  // program gives up.
  method ServerLaunch(shares: seq<nat>, connected: nat) returns (started: seq<nat>, ok: bool)
    ensures ok <==> |WithShare(shares, 0)| <= connected
    ensures ok ==> started == WithShare(shares, 0)
    ensures !ok ==> started == WithShare(shares, 0)[..connected]
  {
    started := [];
    var thread := 0;
    while thread < |shares|
      invariant thread <= |shares| && |started| <= connected
      invariant started + WithShare(shares, thread) == WithShare(shares, 0)
    {
      if shares[thread] == 0 {
        thread := thread + 1;
        continue;
      }
      if |started| == connected {
        return started, false;
      }
      assert started + WithShare(shares, thread) == started + [thread] + WithShare(shares, thread + 1);
      started := started + [thread];
      thread := thread + 1;
    }
    ok := true;
  }

  lemma {:induction false} NoShares(shares: seq<nat>, from: nat)
    requires forall k :: from <= k < |shares| ==> shares[k] == 0
    ensures WithShare(shares, from) == []
    decreases |shares| - from
  {
    if from < |shares| {
      NoShares(shares, from + 1);
    }
  }

  // A split leaves a zero share only after index 0, and then all the later ones are zero.
  lemma ZerosAreLast(size: nat, n: nat, k: nat)
    requires 1 <= n && 1 <= size && k < n && Shares(size, n)[k] == 0
    ensures k >= 1
    ensures forall j :: k <= j < n ==> Shares(size, n)[j] == 0
  {
    DivMod(size, n);
  }

  /** The client's loop starts the same threads although it skips an index unexamined. */
  method ClientLaunch(size: nat, shares: seq<nat>, connected: nat) returns (started: seq<nat>, ok: bool)
    requires 1 <= |shares| && 1 <= size && shares == Shares(size, |shares|)
    ensures ok <==> |WithShare(shares, 0)| <= connected
    ensures ok ==> started == WithShare(shares, 0)
    ensures !ok ==> started == WithShare(shares, 0)[..connected]
  {
    started := [];
    var thread := 0;
    while thread < |shares|
      invariant |started| <= connected
      invariant started + WithShare(shares, thread) == WithShare(shares, 0)
      decreases |shares| - thread
    {
      if shares[thread] == 0 {
        ZerosAreLast(size, |shares|, thread);
        NoShares(shares, thread);
        NoShares(shares, thread + 2);
        thread := thread + 1;
      } else {
        if |started| == connected {
          return started, false;
        }
        assert started + WithShare(shares, thread) == started + [thread] + WithShare(shares, thread + 1);
        started := started + [thread];
      }
      thread := thread + 1;
    }
    ok := true;
  }

  function Count(from: nat, n: nat): seq<nat>
    requires from <= n
    decreases n - from
  {
    if from == n then [] else [from] + Count(from + 1, n)
  }

  lemma {:induction false} AllHaveShares(shares: seq<nat>, from: nat)
    requires from <= |shares| && forall k :: from <= k < |shares| ==> shares[k] > 0
    ensures WithShare(shares, from) == Count(from, |shares|)
    decreases |shares| - from
  {
    if from < |shares| {
      AllHaveShares(shares, from + 1);
    }
  }

  /**
   The threads both sides start: all of them when there is a byte for each, otherwise
   thread 0 alone, which then carries the whole message.
   */
  lemma StartedThreads(size: nat, n: nat)
    requires 1 <= size && 1 <= n
    ensures WithShare(Shares(size, n), 0) == if size < n then [0] else Count(0, n)
    ensures size < n ==> Shares(size, n)[0] == size
  {
    DivMod(size, n);
    var shares := Shares(size, n);
    if size < n {
      assert size / n == 0;
      NoShares(shares, 1);
    } else {
      assert size / n >= 1;
      AllHaveShares(shares, 0);
    }
  }
}
