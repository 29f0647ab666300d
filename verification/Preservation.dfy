/** Every message, close and connection keeps the invariant. */
module Preservation {
  import opened Wire
  import opened ServerState
  import opened Stability
  import opened Selection
  import opened Votes
  import opened Protocol
  import opened Events
  import opened Invariants

  /** `s'` is in the same place as `s` and votes alike; in a clean run it also has the same
      identity, lists and latest vote. */
  predicate Alike(s: Session, s': Session, clean: bool) {
    && SamePlace(s, s')
    && (s.phase == Active ==> s'.poll.ff == s.poll.ff)
    && (s.phase == Active && clean ==>
          && s'.nodeId == s.nodeId && s'.ring == s.ring
          && s'.config == s.config && s'.membership == s.membership
          && s'.poll.lastAckNack == s.poll.lastAckNack)
  }

  /** Same place: activity and, when active, what admission checked besides the node id. */
  predicate SamePlace(s: Session, s': Session) {
    && (s'.phase == Active <==> s.phase == Active)
    && (s.phase == Active ==>
          s'.cluster == s.cluster && s'.clusterName == s.clusterName && s'.tieBreaker == s.tieBreaker)
  }

  ghost predicate SamePlaces(a: State, b: State) {
    && |b.sessions| == |a.sessions| && b.clusters == a.clusters
    && (forall i :: 0 <= i < |a.sessions| ==> SamePlace(a.sessions[i], b.sessions[i]))
  }

  ghost predicate AlikeStates(a: State, b: State, clean: bool) {
    && |b.sessions| == |a.sessions| && b.clusters == a.clusters
    && (forall i :: 0 <= i < |a.sessions| ==> Alike(a.sessions[i], b.sessions[i], clean))
  }

  lemma PlaceMembers(a: State, b: State)
    requires SamePlaces(a, b)
    ensures forall c, i :: InCluster(b, c, i) <==> InCluster(a, c, i)
    ensures forall c :: Members(b, c) == Members(a, c)
  {
    forall c, i
      ensures InCluster(b, c, i) <==> InCluster(a, c, i)
    {
      if 0 <= i < |a.sessions| {
        assert SamePlace(a.sessions[i], b.sessions[i]);
      }
    }
  }

  lemma PlaceBook(a: State, b: State)
    requires SamePlaces(a, b) && Book(a)
    requires forall i :: 0 <= i < |b.sessions| ==> SessionOk(b.sessions[i])
    ensures Book(b)
  {
    PlaceMembers(a, b);
    forall i | 0 <= i < |a.sessions|
      ensures MemberOk(b, i)
    {
      assert MemberOk(a, i) && SamePlace(a.sessions[i], b.sessions[i]);
    }
    forall c | 0 <= c < |a.clusters|
      ensures RecordOk(b, c)
    {
      assert RecordOk(a, c);
    }
    forall c, i, j | InCluster(b, c, i) && InCluster(b, c, j)
      ensures SameTieBreaker(b.sessions[i].tieBreaker, b.sessions[j].tieBreaker)
    {
      assert SamePlace(a.sessions[i], b.sessions[i]) && SamePlace(a.sessions[j], b.sessions[j]);
    }
  }

  lemma PlaceIdentity(a: State, b: State)
    requires SamePlaces(a, b) && Identity(a)
    requires forall i :: 0 <= i < |b.sessions| && b.sessions[i].phase == Active ==>
               b.sessions[i].nodeId == a.sessions[i].nodeId
    requires forall i :: 0 <= i < |b.sessions| ==> SelfListed(b.sessions[i])
    ensures Identity(b)
  {
    PlaceMembers(a, b);
    forall c
      ensures DistinctIds(b, c)
    {
      assert DistinctIds(a, c);
    }
  }

  lemma AlikeWork(a: State, b: State, clean: bool, c: int)
    requires AlikeStates(a, b, clean) && 0 <= c < |a.clusters| && WorkOk(a, c)
    ensures WorkOk(b, c)
  {
    AlikePlaces(a, b, clean);
    forall f
      ensures AnySending(b, c, f) <==> AnySending(a, c, f)
    {
      forall i | InCluster(a, c, i)
        ensures a.sessions[i].poll.ff == b.sessions[i].poll.ff
      {
        assert Alike(a.sessions[i], b.sessions[i], clean);
      }
    }
  }

  lemma AlikePlaces(a: State, b: State, clean: bool)
    requires AlikeStates(a, b, clean)
    ensures SamePlaces(a, b)
    ensures forall c, i :: InCluster(b, c, i) <==> InCluster(a, c, i)
  {
    forall i | 0 <= i < |a.sessions|
      ensures SamePlace(a.sessions[i], b.sessions[i])
    {
      assert Alike(a.sessions[i], b.sessions[i], clean);
    }
    PlaceMembers(a, b);
  }

  lemma AlikeAcked(a: State, b: State, c: int)
    requires AlikeStates(a, b, true) && 0 <= c < |a.clusters| && AckedOk(a, c)
    ensures AckedOk(b, c)
  {
    AlikePlaces(a, b, true);
    forall i | InCluster(a, c, i)
      ensures Alike(a.sessions[i], b.sessions[i], true) && (Holder(b, c, i) <==> Holder(a, c, i))
    {
      assert Alike(a.sessions[i], b.sessions[i], true);
    }
  }

  lemma AlikeInv(a: State, b: State, clean: bool)
    requires AlikeStates(a, b, clean) && Inv(a, clean)
    requires forall i :: 0 <= i < |b.sessions| ==> SessionOk(b.sessions[i])
    ensures Inv(b, clean)
  {
    AlikePlaces(a, b, clean);
    PlaceBook(a, b);
    forall c | 0 <= c < |a.clusters|
      ensures WorkOk(b, c) && (clean ==> AckedOk(b, c))
    {
      assert WorkOk(a, c) && (clean ==> AckedOk(a, c));
      AlikeWork(a, b, clean, c);
      if clean {
        AlikeAcked(a, b, c);
      }
    }
    if clean {
      forall i | 0 <= i < |a.sessions|
        ensures SelfListed(b.sessions[i])
        ensures b.sessions[i].phase == Active ==> b.sessions[i].nodeId == a.sessions[i].nodeId
      {
        assert Alike(a.sessions[i], b.sessions[i], true) && SelfListed(a.sessions[i]) && SessionOk(b.sessions[i]);
      }
      PlaceIdentity(a, b);
    }
  }

  /** Replacing a session by one alike keeps the invariant. */
  lemma EditInv(st: State, slot: nat, s': Session, clean: bool)
    requires slot < |st.sessions| && Inv(st, clean) && Alike(st.sessions[slot], s', clean) && SessionOk(s')
    ensures Inv(SetSession(st, slot, s'), clean)
  {
    var st' := SetSession(st, slot, s');
    forall i | 0 <= i < |st.sessions|
      ensures Alike(st.sessions[i], st'.sessions[i], clean) && SessionOk(st'.sessions[i])
    {
      assert SessionOk(st.sessions[i]);
    }
    AlikeInv(st, st', clean);
  }

  lemma InvSame(a: State, b: State, clean: bool)
    requires Inv(a, clean) && b.sessions == a.sessions && b.clusters == a.clusters
    ensures Inv(b, clean)
  {
    AlikeInv(a, b, clean);
  }

  // ---------------------------------------------------------------- triggers

  /** The trigger's session once the decision is taken and its incoming lists are stored. */
  predicate StoredBy(s: Session, tv: Trigger, s': Session) {
    s' == s.(ring := tv.ring, config := tv.config, membership := tv.membership, heuristics := tv.heuristics)
  }

  /** A trigger as the handlers build them: both lists present and naming their sender. */
  ghost predicate GoodTrigger(st: State, tv: Trigger) {
    && ValidTrigger(st, tv) && !tv.leaving
    && Has(tv.config, st.sessions[tv.slot].nodeId) && Has(tv.membership, st.sessions[tv.slot].nodeId)
  }

  lemma TriggerInv(st: State, tv: Trigger, s': Session, clean: bool)
    requires Inv(st, clean) && ValidTrigger(st, tv) && !tv.leaving && (clean ==> GoodTrigger(st, tv))
    requires |FfsplitDo(st, tv).0.sessions| == |st.sessions|
    requires StoredBy(FfsplitDo(st, tv).0.sessions[tv.slot], tv, s')
    ensures Inv(SetSession(FfsplitDo(st, tv).0, tv.slot, s'), clean)
  {
    var c := TriggerCluster(st, tv);
    var st1 := FfsplitDo(st, tv).0;
    var fin := SetSession(st1, tv.slot, s');
    FfsplitIsFfStep(st, tv);
    assert tv.slot in Members(st, c);
    FfStepBook(st, st1, c);
    forall i | 0 <= i < |st.sessions|
      ensures SamePlace(st1.sessions[i], fin.sessions[i]) && SessionOk(fin.sessions[i])
    {
      assert SessionOk(st1.sessions[i]);
    }
    PlaceBook(st1, fin);
    FfsplitWork(st, tv);
    PlaceMembers(st1, fin);
    forall d | 0 <= d < |st.clusters|
      ensures WorkOk(fin, d)
    {
      assert WorkOk(st1, d);
      assert forall f :: AnySending(fin, d, f) <==> AnySending(st1, d, f);
    }
    if clean {
      TriggerIdentity(st, tv, s');
      TriggerAcked(st, tv, s');
    }
  }

  lemma TriggerIdentity(st: State, tv: Trigger, s': Session)
    requires Identity(st) && GoodTrigger(st, tv)
    requires |FfsplitDo(st, tv).0.sessions| == |st.sessions|
    requires StoredBy(FfsplitDo(st, tv).0.sessions[tv.slot], tv, s')
    ensures Identity(SetSession(FfsplitDo(st, tv).0, tv.slot, s'))
  {
    var st1 := FfsplitDo(st, tv).0;
    var fin := SetSession(st1, tv.slot, s');
    FfsplitVoteStep(st, tv);
    forall i | 0 <= i < |st.sessions|
      ensures SamePlace(st.sessions[i], fin.sessions[i]) && SelfListed(fin.sessions[i])
      ensures fin.sessions[i].nodeId == st.sessions[i].nodeId
    {
      assert VoteFieldsOnly(st.sessions[i], st1.sessions[i]) && SelfListed(st.sessions[i]);
    }
    PlaceIdentity(st, fin.(clusters := st.clusters));
    forall d
      ensures DistinctIds(fin, d)
    {
      assert DistinctIds(fin.(clusters := st.clusters), d);
      assert forall i :: InCluster(fin, d, i) <==> InCluster(fin.(clusters := st.clusters), d, i);
    }
  }

  lemma TriggerAcked(st: State, tv: Trigger, s': Session)
    requires Identity(st) && Acked(st) && GoodTrigger(st, tv)
    requires |FfsplitDo(st, tv).0.sessions| == |st.sessions|
    requires StoredBy(FfsplitDo(st, tv).0.sessions[tv.slot], tv, s')
    ensures Acked(SetSession(FfsplitDo(st, tv).0, tv.slot, s'))
  {
    var c := TriggerCluster(st, tv);
    var st1 := FfsplitDo(st, tv).0;
    var fin := SetSession(st1, tv.slot, s');
    FfsplitIsFfStep(st, tv);
    forall d | 0 <= d < |st.clusters|
      ensures AckedOk(fin, d)
    {
      assert AckedOk(st, d);
      if d == c {
        TriggerAckedHere(st, tv, s');
      } else {
        FfStepOthers(st, st1, c, d);
        FfStepMembers(st, st1, c);
        assert forall i :: InCluster(fin, d, i) ==> InCluster(st1, d, i) && fin.sessions[i] == st1.sessions[i];
        assert forall i :: Holder(fin, d, i) ==> Holder(st1, d, i);
      }
    }
  }

  lemma TriggerAckedHere(st: State, tv: Trigger, s': Session)
    requires Identity(st) && GoodTrigger(st, tv) && AckedOk(st, TriggerCluster(st, tv))
    requires |FfsplitDo(st, tv).0.sessions| == |st.sessions|
    requires StoredBy(FfsplitDo(st, tv).0.sessions[tv.slot], tv, s')
    ensures TriggerCluster(st, tv) < |FfsplitDo(st, tv).0.clusters|
    ensures AckedOk(SetSession(FfsplitDo(st, tv).0, tv.slot, s'), TriggerCluster(st, tv))
  {
    var c := TriggerCluster(st, tv);
    var st1 := FfsplitDo(st, tv).0;
    var fin := SetSession(st1, tv.slot, s');
    if Stable(st, tv) {
      StoredAfterDecision(st, tv, s');
      StoredSelfMembership(st, tv);
      AfterDecisionAcked(st, tv, fin);
    } else {
      assert forall i :: InCluster(fin, c, i) ==> InCluster(st, c, i);
      assert forall i :: Holder(fin, c, i) ==> Holder(st, c, i);
    }
  }

  lemma StoredSelfMembership(st: State, tv: Trigger)
    requires Identity(st) && ValidTrigger(st, tv) && (!tv.leaving ==> GoodTrigger(st, tv))
    ensures SelfMembership(st, tv)
  {
    forall i | Takes(st, tv, i) && EffMembership(st, tv, i) != []
      ensures Has(EffMembership(st, tv, i), st.sessions[i].nodeId)
    {
      assert SelfListed(st.sessions[i]);
    }
  }

  lemma StoredAfterDecision(st: State, tv: Trigger, s': Session)
    requires GoodTrigger(st, tv) && Stable(st, tv)
    requires |FfsplitDo(st, tv).0.sessions| == |st.sessions|
    requires StoredBy(FfsplitDo(st, tv).0.sessions[tv.slot], tv, s')
    ensures AfterDecision(st, tv, SetSession(FfsplitDo(st, tv).0, tv.slot, s'))
  {
    var c := TriggerCluster(st, tv);
    var w := Winner(st, tv);
    var st1 := FfsplitDo(st, tv).0;
    var fin := SetSession(st1, tv.slot, s');
    DecisionEffect(st, tv, w);
    forall i | InCluster(fin, c, i)
      ensures Takes(st, tv, i) && fin.sessions[i].nodeId == st.sessions[i].nodeId
      ensures fin.sessions[i].poll.ff == Decided(st, tv, w, i).poll.ff
      ensures fin.sessions[i].poll.lastAckNack == Decided(st, tv, w, i).poll.lastAckNack
      ensures fin.sessions[i].ring == EffRing(st, tv, i)
      ensures fin.sessions[i].config == EffConfig(st, tv, i)
      ensures fin.sessions[i].membership == EffMembership(st, tv, i)
    {
      assert st1.sessions[i] == Decided(st, tv, w, i);
    }
  }

  // ---------------------------------------------------------------- closing a session

  /** `b` is `a` without the active session in `slot`. */
  ghost predicate Gone(a: State, b: State, slot: nat) {
    && slot < |a.sessions| && a.sessions[slot].phase == Active && 0 <= a.sessions[slot].cluster < |a.clusters|
    && b.sessions == a.sessions[slot := FreshSession]
    && var c := a.sessions[slot].cluster;
       var n := a.clusters[c].members - 1;
       b.clusters == a.clusters[c := if n <= 0 then NoCluster else a.clusters[c].(members := n)]
  }

  lemma CloseIsGone(st: State, slot: nat)
    requires slot < |st.sessions| && st.sessions[slot].phase == Active && Indexed(st)
    ensures var st1 := FfsplitDo(st, StoredTrigger(st, slot, true)).0;
            FfStep(st, st1, st.sessions[slot].cluster) && Gone(st1, CloseSlot(st, slot), slot)
  {
    FfsplitIsFfStep(st, StoredTrigger(st, slot, true));
  }

  lemma GoneMembers(a: State, b: State, slot: nat)
    requires Gone(a, b, slot)
    ensures forall d, i :: InCluster(b, d, i) <==> InCluster(a, d, i) && i != slot
    ensures forall d :: Members(b, d) == Members(a, d) - {slot}
    ensures forall d, i :: InCluster(b, d, i) ==> b.sessions[i] == a.sessions[i]
  {
    forall d, i
      ensures InCluster(b, d, i) <==> InCluster(a, d, i) && i != slot
    {
    }
  }

  lemma GoneRecord(a: State, b: State, slot: nat, d: int)
    requires Gone(a, b, slot) && 0 <= d < |a.clusters| && RecordOk(a, d)
    ensures RecordOk(b, d)
    ensures b.clusters[d].used ==> b.clusters[d].name == a.clusters[d].name && a.clusters[d].used
    ensures b.clusters[d].used <==> Members(b, d) != {}
  {
    GoneMembers(a, b, slot);
    if d == a.sessions[slot].cluster {
      assert slot in Members(a, d);
    } else {
      assert slot !in Members(a, d);
    }
  }

  lemma GoneBook(a: State, b: State, slot: nat)
    requires Gone(a, b, slot) && Book(a)
    ensures Book(b)
  {
    GoneMembers(a, b, slot);
    forall d | 0 <= d < |a.clusters|
      ensures RecordOk(b, d)
      ensures b.clusters[d].used ==> b.clusters[d].name == a.clusters[d].name && a.clusters[d].used
      ensures b.clusters[d].used <==> Members(b, d) != {}
    {
      assert RecordOk(a, d);
      GoneRecord(a, b, slot, d);
    }
    forall i | 0 <= i < |a.sessions|
      ensures SessionOk(b.sessions[i]) && MemberOk(b, i)
    {
      assert SessionOk(a.sessions[i]) && MemberOk(a, i);
      if b.sessions[i].phase == Active {
        assert i in Members(b, b.sessions[i].cluster);
      }
    }
    GoneTieBreakers(a, b, slot);
  }

  lemma GoneTieBreakers(a: State, b: State, slot: nat)
    requires Gone(a, b, slot) && TieBreakersAgree(a)
    ensures TieBreakersAgree(b)
  {
    GoneMembers(a, b, slot);
  }

  lemma GoneSending(a: State, b: State, slot: nat, d: int, f: FfClient)
    requires Gone(a, b, slot) && (d == a.sessions[slot].cluster ==> a.sessions[slot].poll.ff != f)
    ensures AnySending(b, d, f) <==> AnySending(a, d, f)
  {
    GoneMembers(a, b, slot);
    if AnySending(a, d, f) {
      var i :| InCluster(a, d, i) && a.sessions[i].poll.ff == f;
      assert InCluster(b, d, i);
    }
  }

  lemma GoneWork(a: State, b: State, slot: nat)
    requires Gone(a, b, slot) && Book(a) && Work(a)
    requires a.clusters[a.sessions[slot].cluster].state == WaitingForStable || a.sessions[slot].poll.ff == Waiting
    ensures Work(b)
  {
    GoneMembers(a, b, slot);
    forall d | 0 <= d < |a.clusters|
      ensures WorkOk(b, d)
    {
      assert WorkOk(a, d) && RecordOk(a, d);
      GoneRecord(a, b, slot, d);
      if Members(b, d) == {} {
        assert forall i :: InCluster(b, d, i) ==> i in Members(b, d);
        assert b.clusters[d] == NoCluster;
      } else if b.clusters[d].state != WaitingForStable {
        GoneSending(a, b, slot, d, SendingNack);
        GoneSending(a, b, slot, d, SendingAck);
      }
    }
  }

  lemma GoneIdentity(a: State, b: State, slot: nat)
    requires Gone(a, b, slot) && Identity(a)
    ensures Identity(b)
  {
    GoneMembers(a, b, slot);
    forall d
      ensures DistinctIds(b, d)
    {
      assert DistinctIds(a, d);
    }
    forall i | 0 <= i < |b.sessions|
      ensures SelfListed(b.sessions[i])
    {
      assert SelfListed(a.sessions[i]);
    }
  }

  /** Without the leaving session, what remains is a state after the decision. */
  lemma CloseAcked(st: State, slot: nat)
    requires slot < |st.sessions| && st.sessions[slot].phase == Active && Indexed(st)
    requires Book(st) && Identity(st) && Acked(st)
    ensures Acked(CloseSlot(st, slot))
  {
    var c := st.sessions[slot].cluster;
    var st1 := FfsplitDo(st, StoredTrigger(st, slot, true)).0;
    var fin := CloseSlot(st, slot);
    CloseIsGone(st, slot);
    GoneMembers(st1, fin, slot);
    forall d | 0 <= d < |st.clusters|
      ensures AckedOk(fin, d)
    {
      assert AckedOk(st, d);
      if d == c {
        CloseAckedHere(st, slot);
      } else {
        FfStepOthers(st, st1, c, d);
        assert forall i :: Holder(fin, d, i) ==> Holder(st1, d, i);
      }
    }
  }

  lemma CloseAckedHere(st: State, slot: nat)
    requires slot < |st.sessions| && st.sessions[slot].phase == Active && Indexed(st)
    requires Book(st) && Identity(st) && AckedOk(st, st.sessions[slot].cluster)
    ensures AckedOk(CloseSlot(st, slot), st.sessions[slot].cluster)
  {
    var tv := StoredTrigger(st, slot, true);
    var c := st.sessions[slot].cluster;
    var st1 := FfsplitDo(st, tv).0;
    var fin := CloseSlot(st, slot);
    CloseIsGone(st, slot);
    if fin.clusters[c] == NoCluster {
      assert slot in Members(st, c);
      FfStepBook(st, st1, c);
      GoneRecord(st1, fin, slot, c);
      EmptyAcked(fin, c);
    } else if Stable(st, tv) {
      GoneAfterDecision(st, slot);
      StoredSelfMembership(st, tv);
      AfterDecisionAcked(st, tv, fin);
    } else {
      GoneMembers(st1, fin, slot);
      FfStepMembers(st, st1, c);
      assert forall i :: Holder(fin, c, i) ==> Holder(st, c, i);
    }
  }

  lemma EmptyAcked(st: State, c: int)
    requires 0 <= c < |st.clusters| && Members(st, c) == {}
    ensures AckedOk(st, c)
  {
    assert forall i :: InCluster(st, c, i) ==> i in Members(st, c);
  }

  lemma GoneAfterDecision(st: State, slot: nat)
    requires slot < |st.sessions| && st.sessions[slot].phase == Active && Indexed(st) && Identity(st)
    requires Stable(st, StoredTrigger(st, slot, true))
    requires CloseSlot(st, slot).clusters[st.sessions[slot].cluster] != NoCluster
    ensures AfterDecision(st, StoredTrigger(st, slot, true), CloseSlot(st, slot))
  {
    var tv := StoredTrigger(st, slot, true);
    var c := st.sessions[slot].cluster;
    var w := Winner(st, tv);
    var st1 := FfsplitDo(st, tv).0;
    var fin := CloseSlot(st, slot);
    CloseIsGone(st, slot);
    GoneMembers(st1, fin, slot);
    FfStepMembers(st, st1, c);
    DecisionEffect(st, tv, w);
    assert DistinctIds(st, c);
    forall i | InCluster(fin, c, i)
      ensures Takes(st, tv, i) && fin.sessions[i] == Decided(st, tv, w, i)
    {
      assert st1.sessions[i] == Decided(st, tv, w, i);
    }
  }

  /** Closing any session keeps the invariant. */
  lemma CloseInv(st: State, slot: nat, clean: bool)
    requires Open(st, slot) && Indexed(st) && Inv(st, clean)
    ensures Inv(CloseSlot(st, slot), clean)
  {
    if st.sessions[slot].phase != Active {
      EditInv(st, slot, FreshSession, clean);
    } else {
      var tv := StoredTrigger(st, slot, true);
      var c := st.sessions[slot].cluster;
      var st1 := FfsplitDo(st, tv).0;
      var fin := CloseSlot(st, slot);
      CloseIsGone(st, slot);
      assert slot in Members(st, c);
      FfStepBook(st, st1, c);
      FfsplitWork(st, tv);
      LeaverWaits(st, slot);
      GoneBook(st1, fin, slot);
      GoneWork(st1, fin, slot);
      if clean {
        FfStepIdentity(st, st1, c);
        GoneIdentity(st1, fin, slot);
        CloseAcked(st, slot);
      }
    }
  }

  lemma LeaverWaits(st: State, slot: nat)
    requires slot < |st.sessions| && ValidTrigger(st, StoredTrigger(st, slot, true))
    ensures var st1 := FfsplitDo(st, StoredTrigger(st, slot, true)).0;
            && |st1.sessions| == |st.sessions| && |st1.clusters| == |st.clusters|
            && (|| st1.clusters[st.sessions[slot].cluster].state == WaitingForStable
                || st1.sessions[slot].poll.ff == Waiting)
  {
    var tv := StoredTrigger(st, slot, true);
    FfsplitVoteStep(st, tv);
    if Stable(st, tv) {
      DecisionEffect(st, tv, Winner(st, tv));
      assert FfsplitDo(st, tv).0.sessions[slot] == Decided(st, tv, Winner(st, tv), slot);
    }
  }

  lemma FfStepIdentity(a: State, b: State, c: int)
    requires FfStep(a, b, c) && Identity(a)
    ensures Identity(b)
  {
    FfStepMembers(a, b, c);
    forall i | 0 <= i < |a.sessions|
      ensures VoteFieldsOnly(a.sessions[i], b.sessions[i]) && SelfListed(b.sessions[i])
    {
      assert SelfListed(a.sessions[i]);
    }
    forall d
      ensures DistinctIds(b, d)
    {
      assert DistinctIds(a, d);
    }
  }

  // ---------------------------------------------------------------- admission

  /** `b` is `a` with the session in `slot` admitted to cluster `c`. */
  ghost predicate Joined(a: State, b: State, slot: nat, c: nat) {
    && slot < |a.sessions| && a.sessions[slot].phase != Active && c < |a.clusters|
    && |b.sessions| == |a.sessions| && b.sessions == a.sessions[slot := b.sessions[slot]]
    && b.sessions[slot].phase == Active && b.sessions[slot].cluster == c && SessionOk(b.sessions[slot])
    && b.sessions[slot].poll == NoPoll && b.sessions[slot].config == [] && b.sessions[slot].membership == []
    && b.clusters == a.clusters[c := a.clusters[c].(used := true, name := b.sessions[slot].clusterName,
                                                    members := a.clusters[c].members + 1)]
    && (a.clusters[c].used ==> a.clusters[c].name == b.sessions[slot].clusterName)
    && (!a.clusters[c].used ==>
          forall d :: 0 <= d < |a.clusters| && a.clusters[d].used ==>
            a.clusters[d].name != b.sessions[slot].clusterName)
    && (forall i :: 0 <= i < |a.sessions| ==> Conflict(a, slot, b.sessions[slot], i) == NoError)
  }

  lemma JoinedMembers(a: State, b: State, slot: nat, c: nat)
    requires Joined(a, b, slot, c) && Book(a)
    ensures forall d, i :: InCluster(b, d, i) <==> InCluster(a, d, i) || (d == c && i == slot)
    ensures Members(b, c) == Members(a, c) + {slot} && slot !in Members(a, c)
    ensures forall d :: d != c ==> Members(b, d) == Members(a, d)
    ensures forall i :: InCluster(a, c, i) ==> Compatible(a, b, slot, i)
  {
    forall i | InCluster(a, c, i)
      ensures Compatible(a, b, slot, i)
    {
      assert MemberOk(a, i) && Conflict(a, slot, b.sessions[slot], i) == NoError;
    }
  }

  ghost predicate Compatible(a: State, b: State, slot: nat, i: int)
    requires 0 <= i < |a.sessions| && slot < |b.sessions|
  {
    SameTieBreaker(b.sessions[slot].tieBreaker, a.sessions[i].tieBreaker)
    && b.sessions[slot].nodeId != a.sessions[i].nodeId
  }

  lemma JoinedBook(a: State, b: State, slot: nat, c: nat)
    requires Joined(a, b, slot, c) && Book(a)
    ensures Book(b)
  {
    JoinedMembers(a, b, slot, c);
    forall d | 0 <= d < |a.clusters|
      ensures RecordOk(b, d)
    {
      assert RecordOk(a, d);
    }
    forall i | 0 <= i < |a.sessions|
      ensures SessionOk(b.sessions[i]) && MemberOk(b, i)
    {
      assert SessionOk(a.sessions[i]) && MemberOk(a, i);
    }
    JoinedTieBreakers(a, b, slot, c);
  }

  lemma JoinedTieBreakers(a: State, b: State, slot: nat, c: nat)
    requires Joined(a, b, slot, c) && TieBreakersAgree(a)
    requires forall i :: InCluster(a, c, i) ==> Compatible(a, b, slot, i)
    ensures TieBreakersAgree(b)
  {
    forall d, i, j | InCluster(b, d, i) && InCluster(b, d, j)
      ensures SameTieBreaker(b.sessions[i].tieBreaker, b.sessions[j].tieBreaker)
    {
      assert i != slot ==> InCluster(a, d, i);
      assert j != slot ==> InCluster(a, d, j);
      assert d == c && i != slot ==> Compatible(a, b, slot, i);
      assert d == c && j != slot ==> Compatible(a, b, slot, j);
    }
  }

  lemma JoinedInv(a: State, b: State, slot: nat, c: nat, clean: bool)
    requires Joined(a, b, slot, c) && Inv(a, clean)
    ensures Inv(b, clean)
  {
    JoinedBook(a, b, slot, c);
    JoinedMembers(a, b, slot, c);
    forall d | 0 <= d < |a.clusters|
      ensures WorkOk(b, d) && (clean ==> AckedOk(b, d))
    {
      assert WorkOk(a, d) && (clean ==> AckedOk(a, d));
      assert forall i :: InCluster(b, d, i) && i != slot ==> InCluster(a, d, i) && b.sessions[i] == a.sessions[i];
      assert forall i :: InCluster(a, d, i) ==> InCluster(b, d, i) && b.sessions[i] == a.sessions[i];
      assert forall f :: f != Waiting ==> (AnySending(b, d, f) <==> AnySending(a, d, f));
      assert forall i :: Holder(b, d, i) ==> Holder(a, d, i);
    }
    if clean {
      JoinedIdentity(a, b, slot, c);
    }
  }

  lemma JoinedIdentity(a: State, b: State, slot: nat, c: nat)
    requires Joined(a, b, slot, c) && Book(a) && Identity(a)
    ensures Identity(b)
  {
    JoinedMembers(a, b, slot, c);
    forall i | 0 <= i < |a.sessions|
      ensures SelfListed(b.sessions[i])
    {
      assert SelfListed(a.sessions[i]);
    }
    forall d
      ensures DistinctIds(b, d)
    {
      assert DistinctIds(a, d);
      forall i, j | InCluster(b, d, i) && InCluster(b, d, j) && i != j
        ensures b.sessions[i].nodeId != b.sessions[j].nodeId
      {
        assert i != slot ==> InCluster(a, d, i);
        assert j != slot ==> InCluster(a, d, j);
        assert j == slot ==> Compatible(a, b, slot, i);
        assert i == slot ==> Compatible(a, b, slot, j);
      }
    }
  }
}
