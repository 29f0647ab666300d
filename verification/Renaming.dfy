/** An INIT on an active session is refused, yet it stores its node id and ring. Exactly which of
    them break what the server relies on. */
module Renaming {
  import opened Wire
  import opened Msg
  import opened ServerState
  import opened Protocol
  import opened Invariants
  import opened Preservation
  import opened Messages

  /** The effect of an INIT on an active session: it is refused, yet node id and ring are stored. */
  lemma RepeatedInit(st: State, slot: nat, m: Decoded, now: nat, maxRx: u32)
    requires Open(st, slot) && Indexed(st) && st.sessions[slot].phase == Active
    ensures var b := HandleInit(st, slot, m, now, maxRx);
            && b.sessions == st.sessions[slot := st.sessions[slot].(nodeId := m.nodeId, ring := m.ring)]
            && b.clusters == st.clusters
  {
  }

  /** When storing node id `id` and ring `ring` in an active session breaks nothing. */
  ghost predicate Harmless(st: State, slot: nat, id: u32, ring: RingId)
    requires slot < |st.sessions| && 0 <= st.sessions[slot].cluster < |st.clusters|
  {
    var s := st.sessions[slot];
    var cl := st.clusters[s.cluster];
    && (forall j :: InCluster(st, s.cluster, j) && j != slot ==> st.sessions[j].nodeId != id)
    && SelfListed(s.(nodeId := id))
    && (s.poll.ff == SendingNack ==> !Has(cl.quorate, id))
    && (Holds(s) ==> Has(cl.quorate, id))
    && (Holds(s) && cl.state != WaitingForStable ==>
          forall j :: Holder(st, s.cluster, j) && j != slot ==> st.sessions[j].ring == ring)
  }

  /** `b` is `st` with another node id and ring in `slot`. */
  ghost predicate Renamed(st: State, b: State, slot: nat, id: u32, ring: RingId) {
    && slot < |st.sessions| && st.sessions[slot].phase == Active
    && b.sessions == st.sessions[slot := st.sessions[slot].(nodeId := id, ring := ring)] && b.clusters == st.clusters
  }

  lemma RenamedIdentity(st: State, b: State, slot: nat, id: u32, ring: RingId)
    requires Renamed(st, b, slot, id, ring) && Identity(st) && 0 <= st.sessions[slot].cluster < |st.clusters|
    ensures var s := st.sessions[slot];
            Identity(b) <==>
            && (forall j :: InCluster(st, s.cluster, j) && j != slot ==> st.sessions[j].nodeId != id)
            && SelfListed(s.(nodeId := id))
  {
    var c := st.sessions[slot].cluster;
    assert InCluster(b, c, slot);
    if Identity(b) {
      assert DistinctIds(b, c) && SelfListed(b.sessions[slot]);
      forall j | InCluster(st, c, j) && j != slot
        ensures st.sessions[j].nodeId != id
      {
        assert InCluster(b, c, j);
      }
    }
    if (forall j :: InCluster(st, c, j) && j != slot ==> st.sessions[j].nodeId != id)
       && SelfListed(st.sessions[slot].(nodeId := id)) {
      forall d, i, j | InCluster(b, d, i) && InCluster(b, d, j) && i != j
        ensures b.sessions[i].nodeId != b.sessions[j].nodeId
      {
        assert DistinctIds(st, d) && InCluster(st, d, i) && InCluster(st, d, j);
      }
      forall i | 0 <= i < |b.sessions|
        ensures SelfListed(b.sessions[i])
      {
        assert SelfListed(st.sessions[i]);
      }
    }
  }

  lemma RenamedHolders(st: State, b: State, slot: nat, id: u32, ring: RingId, d: int, i: int)
    requires Renamed(st, b, slot, id, ring)
    ensures InCluster(b, d, i) <==> InCluster(st, d, i)
    ensures Holder(b, d, i) <==> Holder(st, d, i)
    ensures 0 <= i < |st.sessions| ==>
              && b.sessions[i].poll == st.sessions[i].poll && b.sessions[i].config == st.sessions[i].config
              && b.sessions[i].membership == st.sessions[i].membership
              && b.sessions[i].nodeId == (if i == slot then id else st.sessions[i].nodeId)
              && b.sessions[i].ring == (if i == slot then ring else st.sessions[i].ring)
  {
  }

  lemma RenamedQuorate(st: State, b: State, slot: nat, id: u32, ring: RingId, d: int)
    requires Renamed(st, b, slot, id, ring) && 0 <= d < |st.clusters| && HoldersQuorate(st, d)
    ensures var (s, q) := (st.sessions[slot], st.clusters[d].quorate);
            HoldersQuorate(b, d)
            <==> (s.cluster == d ==> (s.poll.ff == SendingNack ==> !Has(q, id)) && (Holds(s) ==> Has(q, id)))
  {
    forall i
      ensures InCluster(b, d, i) <==> InCluster(st, d, i)
      ensures Holder(b, d, i) <==> Holder(st, d, i)
    {
      RenamedHolders(st, b, slot, id, ring, d, i);
    }
    if st.sessions[slot].cluster == d {
      assert InCluster(st, d, slot);
      RenamedHolders(st, b, slot, id, ring, d, slot);
    }
  }

  lemma RenamedSide(st: State, b: State, slot: nat, id: u32, ring: RingId, d: int)
    requires Renamed(st, b, slot, id, ring) && 0 <= d < |st.clusters| && OneSide(st, d)
    ensures OneSide(b, d) <==> (Holder(st, d, slot) ==>
              forall j :: Holder(st, d, j) && j != slot ==> st.sessions[j].ring == ring)
  {
    forall i
      ensures Holder(b, d, i) <==> Holder(st, d, i)
    {
      RenamedHolders(st, b, slot, id, ring, d, i);
    }
    if OneSide(b, d) && Holder(st, d, slot) {
      forall j | Holder(st, d, j) && j != slot
        ensures st.sessions[j].ring == ring
      {
        assert Holder(b, d, j) && Holder(b, d, slot);
      }
    }
    if Holder(st, d, slot) ==> forall j :: Holder(st, d, j) && j != slot ==> st.sessions[j].ring == ring {
      forall i, j | Holder(b, d, i) && Holder(b, d, j)
        ensures b.sessions[i].ring == b.sessions[j].ring
      {
        assert Holder(st, d, i) && Holder(st, d, j);
      }
      forall i | Holder(b, d, i)
        ensures Ids(b.sessions[i].membership) == Ids(b.clusters[d].quorate)
      {
        assert Holder(st, d, i);
      }
    }
  }

  lemma RenamedAcked(st: State, b: State, slot: nat, id: u32, ring: RingId)
    requires Renamed(st, b, slot, id, ring) && Acked(st) && 0 <= st.sessions[slot].cluster < |st.clusters|
    ensures var s := st.sessions[slot];
            var cl := st.clusters[s.cluster];
            Acked(b) <==>
            && (s.poll.ff == SendingNack ==> !Has(cl.quorate, id))
            && (Holds(s) ==> Has(cl.quorate, id))
            && (Holds(s) && cl.state != WaitingForStable ==>
                  forall j :: Holder(st, s.cluster, j) && j != slot ==> st.sessions[j].ring == ring)
  {
    var c := st.sessions[slot].cluster;
    forall d | 0 <= d < |st.clusters|
      ensures d != c ==> AckedOk(b, d)
      ensures d == c ==> (AckedOk(b, c) <==>
                && (st.sessions[slot].poll.ff == SendingNack ==> !Has(st.clusters[c].quorate, id))
                && (Holds(st.sessions[slot]) ==> Has(st.clusters[c].quorate, id))
                && (Holds(st.sessions[slot]) && st.clusters[c].state != WaitingForStable ==>
                      forall j :: Holder(st, c, j) && j != slot ==> st.sessions[j].ring == ring))
    {
      assert AckedOk(st, d);
      RenamedQuorate(st, b, slot, id, ring, d);
      if st.clusters[d].state != WaitingForStable {
        RenamedSide(st, b, slot, id, ring, d);
      }
    }
    assert Acked(b) <==> AckedOk(b, c);
  }

  /** Exactly which repeated INITs keep the invariant of fixed identities. Bookkeeping and cluster
      states survive all of them. */
  lemma RepeatedInitIff(st: State, slot: nat, m: Decoded, now: nat, maxRx: u32)
    requires Open(st, slot) && Indexed(st) && st.sessions[slot].phase == Active && Inv(st, true)
    ensures Inv(HandleInit(st, slot, m, now, maxRx), true) <==> Harmless(st, slot, m.nodeId, m.ring)
  {
    var b := HandleInit(st, slot, m, now, maxRx);
    RepeatedInit(st, slot, m, now, maxRx);
    RenamedIdentity(st, b, slot, m.nodeId, m.ring);
    RenamedAcked(st, b, slot, m.nodeId, m.ring);
    InvSame(st, st, false);
    InitInv(st, slot, m, now, maxRx, false);
  }

  /** Message `m` of type `t` is no INIT on an active session, or a harmless one. */
  ghost predicate HarmlessMsg(st: State, slot: nat, t: u16, m: Decoded)
    requires slot < |st.sessions|
  {
    t == INIT && st.sessions[slot].phase == Active && 0 <= st.sessions[slot].cluster < |st.clusters| ==>
      Harmless(st, slot, m.nodeId, m.ring)
  }

  /** Every message but a harmful INIT keeps the invariant. */
  lemma HarmlessMsgInv(st: State, slot: nat, t: u16, m: Decoded, frame: seq<byte>, now: nat, maxRx: u32, clean: bool)
    requires Open(st, slot) && Indexed(st) && Inv(st, clean)
    requires clean ==> HarmlessMsg(st, slot, t, m)
    ensures Inv(HandleMsg(st, slot, t, m, frame, now, maxRx), clean)
  {
    if clean && t == INIT && st.sessions[slot].phase == Active {
      RepeatedInitIff(st, slot, m, now, maxRx);
    } else {
      HandleMsgInv(st, slot, t, m, frame, now, maxRx, clean);
    }
  }

  /** An INIT that repeats the session's own node id and ring is harmless. */
  lemma CleanIsHarmless(st: State, slot: nat, t: u16, m: Decoded)
    requires slot < |st.sessions| && Inv(st, true) && CleanMsg(st.sessions[slot], t, m)
    ensures HarmlessMsg(st, slot, t, m)
  {
    var c := st.sessions[slot].cluster;
    if t == INIT && st.sessions[slot].phase == Active && 0 <= c < |st.clusters| {
      assert DistinctIds(st, c) && InCluster(st, c, slot) && AckedOk(st, c);
      assert SelfListed(st.sessions[slot]);
    }
  }
}
