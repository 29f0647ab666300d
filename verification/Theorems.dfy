/** What the server's invariant says about whole runs. */
module Theorems {
  import opened Wire
  import opened ServerState
  import opened Votes
  import opened Events
  import opened Invariants
  import opened Runs
  import opened Framing
  import opened DeadPeers

  // ---------------------------------------------------------------- every run

  /** Bookkeeping is conserved: a cluster record counts its active sessions and is in use exactly
      when there are any, names are distinct, and the members of a cluster share its name and one
      tie-breaker. */
  lemma BookkeepingConserved(es: seq<Input>, maxRx: u32, c: int)
    requires 0 <= c < MAX_CLUSTERS
    ensures var st := Run(es, maxRx).core;
            && |st.clusters| == MAX_CLUSTERS
            && st.clusters[c].members == |Members(st, c)|
            && (st.clusters[c].used <==> Members(st, c) != {})
            && (forall d :: 0 <= d < MAX_CLUSTERS && d != c && st.clusters[c].used && st.clusters[d].used ==>
                  st.clusters[d].name != st.clusters[c].name)
            && (forall i :: InCluster(st, c, i) ==> st.sessions[i].clusterName == st.clusters[c].name)
            && (forall i, j :: InCluster(st, c, i) && InCluster(st, c, j) ==>
                  SameTieBreaker(st.sessions[i].tieBreaker, st.sessions[j].tieBreaker))
  {
    RunInv(es, maxRx);
    var st := Run(es, maxRx).core;
    assert RecordOk(st, c);
    forall i | InCluster(st, c, i)
      ensures st.sessions[i].clusterName == st.clusters[c].name
    {
      assert MemberOk(st, i);
    }
  }

  /** The state of a cluster says exactly which vote-infos are outstanding. */
  lemma ClusterStateExact(es: seq<Input>, maxRx: u32, c: int)
    requires 0 <= c < MAX_CLUSTERS
    ensures var st := Run(es, maxRx).core;
            && (st.clusters[c].state == SendingNacks ==> AnySending(st, c, SendingNack))
            && (st.clusters[c].state == SendingAcks ==>
                  !AnySending(st, c, SendingNack) && AnySending(st, c, SendingAck))
            && (st.clusters[c].state == WaitingForChange ==>
                  !AnySending(st, c, SendingNack) && !AnySending(st, c, SendingAck))
  {
    RunInv(es, maxRx);
    assert WorkOk(Run(es, maxRx).core, c);
  }

  /** Between entry points no close is pending, no session is scheduled for one, nothing is being
      processed, and every buffer is a strict prefix of one admissible frame. */
  lemma NothingPending(es: seq<Input>, maxRx: u32, slot: nat)
    requires slot < MAX_CLIENTS
    ensures var h := Run(es, maxRx);
            h.pending == [] && !h.processing && !h.closing[slot] && Partial(h.rx[slot], maxRx)
  {
    RunInv(es, maxRx);
    assert Resting(Run(es, maxRx), maxRx, slot);
  }

  // ---------------------------------------------------------------- runs with fixed identities

  /** "Both sides ACKed" is unreachable: two sessions of a cluster whose last vote was an ACK, in a
      cluster that is not waiting for stability, are both in the quorate partition, and they store
      one ring and one membership, which is that partition. */
  lemma BothSidesUnreachable(es: seq<Input>, maxRx: u32, c: int, i: int, j: int)
    requires CleanRun(es, maxRx) && 0 <= c < MAX_CLUSTERS
    requires var st := Run(es, maxRx).core;
             && st.clusters[c].state != WaitingForStable && InCluster(st, c, i) && InCluster(st, c, j)
             && st.sessions[i].poll.lastAckNack == Ack && st.sessions[j].poll.lastAckNack == Ack
    ensures var st := Run(es, maxRx).core;
            && Has(st.clusters[c].quorate, st.sessions[i].nodeId) && Has(st.clusters[c].quorate, st.sessions[j].nodeId)
            && st.sessions[i].ring == st.sessions[j].ring
            && Ids(st.sessions[i].membership) == Ids(st.sessions[j].membership) == Ids(st.clusters[c].quorate)
  {
    CleanRunInv(es, maxRx);
    var st := Run(es, maxRx).core;
    assert AckedOk(st, c) && Holder(st, c, i) && Holder(st, c, j);
  }

  /** Active members of a cluster have distinct node ids, and stored lists name their owner. */
  lemma IdentitiesKept(es: seq<Input>, maxRx: u32, c: int)
    requires CleanRun(es, maxRx)
    ensures var st := Run(es, maxRx).core;
            && DistinctIds(st, c)
            && forall i :: InCluster(st, c, i) ==>
                 && (st.sessions[i].config != [] ==> Has(st.sessions[i].config, st.sessions[i].nodeId))
                 && (st.sessions[i].membership != [] ==> Has(st.sessions[i].membership, st.sessions[i].nodeId))
  {
    CleanRunInv(es, maxRx);
    var st := Run(es, maxRx).core;
    forall i | InCluster(st, c, i)
      ensures SelfListed(st.sessions[i])
    {
    }
  }

  // ---------------------------------------------------------------- connections

  function Count(xs: seq<nat>, x: nat): (n: nat) {
    if xs == [] then 0 else Count(xs[..|xs| - 1], x) + (if xs[|xs| - 1] == x then 1 else 0)
  }

  lemma {:induction false} CountAppend(xs: seq<nat>, ys: seq<nat>, x: nat)
    ensures Count(xs + ys, x) == Count(xs, x) + Count(ys, x)
  {
    if ys == [] {
      assert xs + ys == xs;
    } else {
      assert (xs + ys)[..|xs + ys| - 1] == xs + ys[..|ys| - 1];
      CountAppend(xs, ys[..|ys| - 1], x);
    }
  }

  lemma {:induction false} CountExpired(h: Host, now: nat, i: nat, slot: nat)
    requires i <= |h.core.sessions| == |h.closing| && slot < |h.core.sessions|
    ensures Count(ExpiredFrom(h, now, i), slot) == if i <= slot && Expired(h, now, slot) then 1 else 0
    decreases |h.core.sessions| - i
  {
    if i < |h.core.sessions| {
      CountExpired(h, now, i + 1, slot);
      var first := if Expired(h, now, i) then [i] else [];
      CountAppend(first, ExpiredFrom(h, now, i + 1), slot);
      assert Count(first, slot) == if Expired(h, now, i) && i == slot then 1 else 0 by {
        assert Expired(h, now, i) ==> first[..|first| - 1] == [];
      }
    }
  }

  /** Whether the input accepts a connection into `slot`, and whether it ends one from outside. */
  predicate Accepts(h: Host, e: Input, slot: nat) {
    e.Connect? && FreeSlot(h.core, 0) == Some(slot)
  }

  predicate HangsUp(h: Host, e: Input, slot: nat) {
    e.Disconnected? && e.slot == slot && OpenSlot(h, slot)
  }

  function One(b: bool): (n: nat) {
    if b then 1 else 0
  }

  ghost function Closed(h: Host, slot: nat): (n: nat) {
    Count(Closes(h.core.out), slot)
  }

  lemma DataBalance(h: Host, s: nat, data: seq<byte>, now: nat, maxRx: u32, slot: nat)
    requires Idle(h, maxRx) && Inv(h.core, false) && slot < |h.core.sessions| && OpenSlot(h, s)
    ensures var r := OnData(h, s, data, now, maxRx);
            Closed(r, slot) + One(OpenSlot(r, slot)) == Closed(h, slot) + One(OpenSlot(h, slot))
  {
    DataEffect(h, s, data, now, maxRx);
    DataDisturbs(h, s, data, now, maxRx);
    var r := OnData(h, s, data, now, maxRx);
    assert slot != s ==> Undisturbed(h, r, slot);
    CountAppend(Closes(h.core.out), [s], slot);
    assert [s][..0] == [];
  }

  lemma StepBalance(h: Host, e: Input, maxRx: u32, slot: nat)
    requires Idle(h, maxRx) && Inv(h.core, false) && slot < |h.core.sessions|
    ensures var r := Step(h, e, maxRx);
            Closed(r, slot) + One(HangsUp(h, e, slot)) + One(OpenSlot(r, slot))
            == Closed(h, slot) + One(Accepts(h, e, slot)) + One(OpenSlot(h, slot))
  {
    match e
    case Connect(now) =>
    case Data(s, data, now) =>
      if OpenSlot(h, s) {
        DataBalance(h, s, data, now, maxRx, slot);
      }
    case Disconnected(s) =>
      if OpenSlot(h, s) {
        HangupBalance(h, s, maxRx, slot);
      }
    case Clock(now) => TickBalance(h, now, maxRx, slot);
  }

  lemma HangupBalance(h: Host, s: nat, maxRx: u32, slot: nat)
    requires Idle(h, maxRx) && slot < |h.core.sessions| && OpenSlot(h, s)
    ensures var r := OnDisconnected(h, s);
            Closed(r, slot) + One(s == slot) + One(OpenSlot(r, slot)) == Closed(h, slot) + One(OpenSlot(h, slot))
  {
    EvictDisturbs(h, s, OnDisconnected(h, s));
    assert slot != s ==> Undisturbed(h, OnDisconnected(h, s), slot);
  }

  lemma TickBalance(h: Host, now: nat, maxRx: u32, slot: nat)
    requires Idle(h, maxRx) && slot < |h.core.sessions|
    ensures var r := Tick(h, now);
            Closed(r, slot) + One(OpenSlot(r, slot)) == Closed(h, slot) + One(OpenSlot(h, slot))
  {
    TickExact(h, now, 0, maxRx);
    CountAppend(Closes(h.core.out), ExpiredFrom(h, now, 0), slot);
    CountExpired(h, now, 0, slot);
    assert TickedAt(h, Tick(h, now), now, 0, slot);
  }

  /** The connections accepted into `slot` over a run. */
  ghost function Accepted(es: seq<Input>, maxRx: u32, slot: nat): (n: nat) {
    if es == [] then 0
    else Accepted(es[..|es| - 1], maxRx, slot) + One(Accepts(Run(es[..|es| - 1], maxRx), es[|es| - 1], slot))
  }

  /** Those of them the transport reported as gone. */
  ghost function HungUp(es: seq<Input>, maxRx: u32, slot: nat): (n: nat) {
    if es == [] then 0
    else HungUp(es[..|es| - 1], maxRx, slot) + One(HangsUp(Run(es[..|es| - 1], maxRx), es[|es| - 1], slot))
  }

  /** Every connection ends exactly once, closed by the server or gone by itself, or is still open. */
  lemma {:induction false} ConnectionsBalance(es: seq<Input>, maxRx: u32, slot: nat)
    requires slot < MAX_CLIENTS
    ensures var h := Run(es, maxRx);
            Accepted(es, maxRx, slot) == Closed(h, slot) + HungUp(es, maxRx, slot) + One(OpenSlot(h, slot))
  {
    if es != [] {
      var es0 := es[..|es| - 1];
      ConnectionsBalance(es0, maxRx, slot);
      RunInv(es0, maxRx);
      StepBalance(Run(es0, maxRx), es[|es| - 1], maxRx, slot);
    }
  }
}
