/** What every step of the server keeps. `Book` (member counts, cluster records, tie-breakers) and
    `Work` (the cluster state describes the outstanding vote-infos) hold in every run; `Identity`
    and `Acked` hold as long as no INIT on an active session is harmful. */
module Invariants {
  import opened Wire
  import opened ServerState
  import opened Stability
  import opened Selection
  import opened Votes
  import opened Protocol

  // ---------------------------------------------------------------- bookkeeping

  /** A session on its own: free slots are blank, only active sessions have lists, votes and a
      cluster, and an active session's heartbeat is in range. */
  predicate SessionOk(s: Session) {
    && (s.phase == Free ==> s == FreshSession)
    && (s.phase != Active ==> s.poll == NoPoll && s.config == [] && s.membership == [] && s.cluster == -1)
    && (s.phase == Active ==> HEARTBEAT_MIN_MS <= s.heartbeat <= HEARTBEAT_MAX_MS && s.algorithm == FFSPLIT)
  }

  /** A cluster record counts its active sessions and is in use exactly when there are any. */
  ghost predicate RecordOk(st: State, c: int)
    requires 0 <= c < |st.clusters|
  {
    && st.clusters[c].members == |Members(st, c)|
    && (st.clusters[c].used <==> st.clusters[c].members > 0)
    && (!st.clusters[c].used ==> st.clusters[c] == NoCluster)
  }

  ghost predicate MemberOk(st: State, i: int)
    requires 0 <= i < |st.sessions|
  {
    var s := st.sessions[i];
    s.phase == Active ==> 0 <= s.cluster < |st.clusters| && st.clusters[s.cluster].used
                          && st.clusters[s.cluster].name == s.clusterName
  }

  ghost predicate NamesDistinct(st: State) {
    forall c, d :: 0 <= c < d < |st.clusters| && st.clusters[c].used && st.clusters[d].used
                   ==> st.clusters[c].name != st.clusters[d].name
  }

  ghost predicate TieBreakersAgree(st: State) {
    forall c, i, j :: InCluster(st, c, i) && InCluster(st, c, j)
                      ==> SameTieBreaker(st.sessions[i].tieBreaker, st.sessions[j].tieBreaker)
  }

  ghost predicate Book(st: State) {
    && (forall i :: 0 <= i < |st.sessions| ==> SessionOk(st.sessions[i]) && MemberOk(st, i))
    && (forall c :: 0 <= c < |st.clusters| ==> RecordOk(st, c))
    && NamesDistinct(st)
    && TieBreakersAgree(st)
  }

  /** The cluster state says exactly which vote-infos are outstanding. */
  ghost predicate WorkOk(st: State, c: int)
    requires 0 <= c < |st.clusters|
  {
    match st.clusters[c].state
    case WaitingForStable => true
    case SendingNacks => AnySending(st, c, SendingNack)
    case SendingAcks => !AnySending(st, c, SendingNack) && AnySending(st, c, SendingAck)
    case WaitingForChange => !AnySending(st, c, SendingNack) && !AnySending(st, c, SendingAck)
  }

  ghost predicate Work(st: State) {
    forall c :: 0 <= c < |st.clusters| ==> WorkOk(st, c)
  }

  // ---------------------------------------------------------------- identities and ACKs

  /** Stored lists, when present, name the session itself. */
  predicate SelfListed(s: Session) {
    && (s.config != [] ==> Has(s.config, s.nodeId))
    && (s.membership != [] ==> Has(s.membership, s.nodeId))
  }

  ghost predicate Identity(st: State) {
    && (forall c :: DistinctIds(st, c))
    && (forall i :: 0 <= i < |st.sessions| ==> SelfListed(st.sessions[i]))
  }

  /** The session has been sent an ACK last, or is about to be sent one. */
  predicate Holds(s: Session) {
    s.poll.lastAckNack == Ack || s.poll.ff == SendingAck
  }

  predicate Holder(st: State, c: int, i: int) {
    InCluster(st, c, i) && Holds(st.sessions[i])
  }

  /** Holders are in the quorate partition; sessions being NACKed are not. */
  ghost predicate HoldersQuorate(st: State, c: int)
    requires 0 <= c < |st.clusters|
  {
    && (forall i :: Holder(st, c, i) ==>
          Has(st.clusters[c].quorate, st.sessions[i].nodeId) && st.sessions[i].config != [])
    && (forall i :: InCluster(st, c, i) && st.sessions[i].poll.ff == SendingNack ==>
          !Has(st.clusters[c].quorate, st.sessions[i].nodeId))
  }

  /** All holders of a cluster share one ring, and their membership is the quorate partition. */
  ghost predicate OneSide(st: State, c: int)
    requires 0 <= c < |st.clusters|
  {
    && (forall i :: Holder(st, c, i) ==> Ids(st.sessions[i].membership) == Ids(st.clusters[c].quorate))
    && (forall i, j :: Holder(st, c, i) && Holder(st, c, j) ==> st.sessions[i].ring == st.sessions[j].ring)
  }

  ghost predicate AckedOk(st: State, c: int)
    requires 0 <= c < |st.clusters|
  {
    HoldersQuorate(st, c) && (st.clusters[c].state != WaitingForStable ==> OneSide(st, c))
  }

  ghost predicate Acked(st: State) {
    forall c :: 0 <= c < |st.clusters| ==> AckedOk(st, c)
  }

  /** The invariant of a run; `clean` adds what only harmful INITs on active sessions break. */
  ghost predicate Inv(st: State, clean: bool) {
    && Book(st) && Work(st)
    && (clean ==> Identity(st) && Acked(st))
  }

  // ---------------------------------------------------------------- a decision

  /** `b` is `a` up to the voting fields of cluster `c` and its record. */
  ghost predicate FfStep(a: State, b: State, c: int) {
    && VoteStep(a, b)
    && 0 <= c < |a.clusters|
    && (forall i :: 0 <= i < |a.sessions| && !InCluster(a, c, i) ==> b.sessions[i] == a.sessions[i])
    && (forall d :: 0 <= d < |a.clusters| && d != c ==> b.clusters[d] == a.clusters[d])
    && b.clusters[c] == a.clusters[c].(state := b.clusters[c].state, quorate := b.clusters[c].quorate)
  }

  lemma FfsplitIsFfStep(st: State, tv: Trigger)
    requires ValidTrigger(st, tv)
    ensures FfStep(st, FfsplitDo(st, tv).0, TriggerCluster(st, tv))
  {
    FfsplitVoteStep(st, tv);
    if Stable(st, tv) {
      DecisionEffect(st, tv, Winner(st, tv));
    }
  }

  lemma AcknowledgeIsFfStep(st: State, slot: nat)
    requires slot < |st.sessions| && ValidTrigger(st, StoredTrigger(st, slot, false))
    ensures FfStep(st, Acknowledge(st, slot), st.sessions[slot].cluster)
  {
    AcknowledgeVoteStep(st, slot);
    var s1 := SetSession(st, slot, st.sessions[slot].(poll := st.sessions[slot].poll.(ff := Waiting)));
    PassEffect(s1, StoredTrigger(s1, slot, false));
  }

  lemma FfStepBook(a: State, b: State, c: int)
    requires Book(a) && FfStep(a, b, c) && Members(a, c) != {}
    ensures Book(b)
  {
    FfStepMembers(a, b, c);
    forall i | 0 <= i < |a.sessions|
      ensures SessionOk(b.sessions[i]) && MemberOk(b, i)
    {
      assert SessionOk(a.sessions[i]) && MemberOk(a, i);
      assert VoteFieldsOnly(a.sessions[i], b.sessions[i]);
    }
    forall d | 0 <= d < |a.clusters|
      ensures RecordOk(b, d)
    {
      assert RecordOk(a, d);
    }
  }

  lemma FfStepMembers(a: State, b: State, c: int)
    requires FfStep(a, b, c)
    ensures forall d, i :: InCluster(b, d, i) <==> InCluster(a, d, i)
    ensures forall d :: Members(b, d) == Members(a, d)
  {
    forall d, i
      ensures InCluster(b, d, i) <==> InCluster(a, d, i)
    {
      if 0 <= i < |a.sessions| {
        assert VoteFieldsOnly(a.sessions[i], b.sessions[i]);
      }
    }
  }

  /** A step of one cluster is invisible to the others. */
  lemma FfStepOthers(a: State, b: State, c: int, d: int)
    requires FfStep(a, b, c) && 0 <= d < |a.clusters| && d != c
    ensures forall i :: InCluster(a, d, i) ==> InCluster(b, d, i) && b.sessions[i] == a.sessions[i]
    ensures WorkOk(b, d) == WorkOk(a, d)
    ensures AckedOk(b, d) == AckedOk(a, d)
  {
    FfStepMembers(a, b, c);
    assert b.clusters[d] == a.clusters[d];
    forall i | InCluster(a, d, i)
      ensures b.sessions[i] == a.sessions[i] && Holder(b, d, i) == Holder(a, d, i)
    {
      assert !InCluster(a, c, i);
    }
    assert forall i :: Holder(b, d, i) <==> Holder(a, d, i);
    assert forall f :: AnySending(b, d, f) <==> AnySending(a, d, f);
  }

  /** After a decision the cluster state describes the outstanding vote-infos. */
  lemma FfsplitWork(st: State, tv: Trigger)
    requires ValidTrigger(st, tv) && Work(st)
    ensures Work(FfsplitDo(st, tv).0)
  {
    var st' := FfsplitDo(st, tv).0;
    var c := TriggerCluster(st, tv);
    FfsplitIsFfStep(st, tv);
    if Stable(st, tv) {
      DecisionEffect(st, tv, Winner(st, tv));
      DecisionWork(st, tv, Winner(st, tv), st');
    }
    forall d | 0 <= d < |st.clusters|
      ensures WorkOk(st', d)
    {
      if d != c {
        FfStepOthers(st, st', c, d);
        assert WorkOk(st, d);
      }
    }
  }

  lemma DecisionWork(st: State, tv: Trigger, w: Option<NodeList>, st': State)
    requires ValidTrigger(st, tv) && DecisionShape(st, tv, w, st')
    ensures WorkOk(st', TriggerCluster(st, tv))
  {
    var c := TriggerCluster(st, tv);
    forall i | 0 <= i < |st.sessions|
      ensures InCluster(st', c, i) <==> InCluster(st, c, i)
      ensures InCluster(st, c, i) ==>
                && (st'.sessions[i].poll.ff == SendingNack <==> Takes(st, tv, i) && !Wins(w, st.sessions[i].nodeId))
                && (st'.sessions[i].poll.ff == SendingAck <==> Takes(st, tv, i) && Wins(w, st.sessions[i].nodeId))
    {
      assert st'.sessions[i] == Decided(st, tv, w, i);
    }
    if AnyLoser(st, tv, w) {
      var i :| Takes(st, tv, i) && !Wins(w, st.sessions[i].nodeId);
      assert InCluster(st', c, i);
    } else if AnyWinner(st, tv, w) {
      var i :| Takes(st, tv, i) && Wins(w, st.sessions[i].nodeId);
      assert InCluster(st', c, i);
    }
  }

  /** Acknowledging a vote-info keeps the cluster state exact. */
  lemma AcknowledgeWork(st: State, slot: nat)
    requires slot < |st.sessions| && ValidTrigger(st, StoredTrigger(st, slot, false)) && Work(st)
    ensures Work(Acknowledge(st, slot))
  {
    var st' := Acknowledge(st, slot);
    var c := st.sessions[slot].cluster;
    AcknowledgeIsFfStep(st, slot);
    forall d | 0 <= d < |st.clusters|
      ensures WorkOk(st', d)
    {
      if d != c {
        FfStepOthers(st, st', c, d);
        assert WorkOk(st, d);
      } else {
        AcknowledgeWorkHere(st, slot);
      }
    }
  }

  lemma AcknowledgeWorkHere(st: State, slot: nat)
    requires slot < |st.sessions| && ValidTrigger(st, StoredTrigger(st, slot, false))
    requires WorkOk(st, st.sessions[slot].cluster)
    ensures |Acknowledge(st, slot).clusters| == |st.clusters|
    ensures WorkOk(Acknowledge(st, slot), st.sessions[slot].cluster)
  {
    var c := st.sessions[slot].cluster;
    var s1 := SetSession(st, slot, st.sessions[slot].(poll := st.sessions[slot].poll.(ff := Waiting)));
    assert forall i :: InCluster(s1, c, i) <==> InCluster(st, c, i);
    assert forall i :: InCluster(s1, c, i) && s1.sessions[i].poll.ff != Waiting ==> s1.sessions[i] == st.sessions[i];
    assert forall f :: f != Waiting && AnySending(s1, c, f) ==> AnySending(st, c, f);
    if st.clusters[c].state == SendingNacks && !AnySending(s1, c, SendingNack) {
      ReleaseWork(s1, slot);
    }
  }

  lemma ReleaseWork(st: State, slot: nat)
    requires slot < |st.sessions| && ValidTrigger(st, StoredTrigger(st, slot, false))
    requires !AnySending(st, st.sessions[slot].cluster, SendingNack)
    ensures var st' := ReleaseAcks(st, StoredTrigger(st, slot, false));
            |st'.clusters| == |st.clusters| && WorkOk(st', st.sessions[slot].cluster)
  {
    var tv := StoredTrigger(st, slot, false);
    var c := st.sessions[slot].cluster;
    var st' := ReleaseAcks(st, tv);
    PassEffect(st, tv);
    forall i
      ensures InCluster(st', c, i) <==> InCluster(st, c, i)
      ensures InCluster(st, c, i) ==> st'.sessions[i].poll.ff == st.sessions[i].poll.ff
      ensures Due(st, tv, true, i) <==> InCluster(st, c, i) && st.sessions[i].poll.ff == SendingAck
    {
      DueIsSending(st, slot, i);
    }
    if AnyDue(st, tv, true) {
      var i :| Due(st, tv, true, i);
      assert InCluster(st', c, i);
    }
  }

  // ---------------------------------------------------------------- winners are on one side

  /** In a stable view all winners share one ring, and the membership of each of them is the
      winning list. */
  lemma WinnersAgree(st: State, tv: Trigger, i: int, j: int)
    requires ValidTrigger(st, tv) && DistinctIds(st, TriggerCluster(st, tv))
    requires Stable(st, tv) && SelfMembership(st, tv)
    requires Takes(st, tv, i) && Wins(Winner(st, tv), st.sessions[i].nodeId)
    requires Takes(st, tv, j) && Wins(Winner(st, tv), st.sessions[j].nodeId)
    ensures EffConfig(st, tv, i) != []
    ensures Ids(EffMembership(st, tv, i)) == Ids(Winner(st, tv).value)
    ensures EffRing(st, tv, i) == EffRing(st, tv, j)
  {
    var b :| Candidate(st, tv, b) && Winner(st, tv).value == EffMembership(st, tv, b);
    PartitionsAreClasses(st, tv, b, i, i);
    PartitionsAreClasses(st, tv, b, j, j);
    var cfg := EffConfig(st, tv, b);
    assert Has(cfg, cfg[0].nodeId);
    assert cfg[0].nodeId in Ids(EffConfig(st, tv, i));
  }

  /** `fin` is what a decision by `tv` on `st` leaves in the trigger's cluster once the incoming
      lists are stored, or the leaving client is gone. */
  ghost predicate AfterDecision(st: State, tv: Trigger, fin: State)
    requires ValidTrigger(st, tv)
  {
    var c := TriggerCluster(st, tv);
    var w := Winner(st, tv);
    && |fin.sessions| == |st.sessions| && |fin.clusters| == |st.clusters|
    && (fin.clusters[c].quorate == if w.Some? then w.value else [])
    && (forall i :: InCluster(fin, c, i) ==>
          && Takes(st, tv, i)
          && fin.sessions[i].nodeId == st.sessions[i].nodeId
          && fin.sessions[i].poll.ff == Decided(st, tv, w, i).poll.ff
          && fin.sessions[i].poll.lastAckNack == Decided(st, tv, w, i).poll.lastAckNack
          && fin.sessions[i].ring == EffRing(st, tv, i)
          && fin.sessions[i].config == EffConfig(st, tv, i)
          && fin.sessions[i].membership == EffMembership(st, tv, i))
  }

  lemma AfterDecisionAcked(st: State, tv: Trigger, fin: State)
    requires ValidTrigger(st, tv) && DistinctIds(st, TriggerCluster(st, tv))
    requires Stable(st, tv) && SelfMembership(st, tv) && AfterDecision(st, tv, fin)
    ensures AckedOk(fin, TriggerCluster(st, tv))
  {
    var c := TriggerCluster(st, tv);
    var w := Winner(st, tv);
    forall i | Holder(fin, c, i)
      ensures Takes(st, tv, i) && Wins(w, st.sessions[i].nodeId)
    {
    }
    forall i, j | Holder(fin, c, i) && Holder(fin, c, j)
      ensures fin.sessions[i].config != []
      ensures Ids(fin.sessions[i].membership) == Ids(fin.clusters[c].quorate)
      ensures fin.sessions[i].ring == fin.sessions[j].ring
    {
      WinnersAgree(st, tv, i, j);
    }
  }

  /** A step of one cluster that only gives up holders and pending NACKs keeps the ACK invariant. */
  lemma ShrinkAcked(a: State, b: State, c: int)
    requires FfStep(a, b, c) && AckedOk(a, c)
    requires b.clusters[c].quorate == a.clusters[c].quorate
    requires b.clusters[c].state != WaitingForStable ==> a.clusters[c].state != WaitingForStable
    requires forall i :: Holder(b, c, i) ==> Holder(a, c, i)
    requires forall i :: InCluster(b, c, i) && b.sessions[i].poll.ff == SendingNack
                         ==> InCluster(a, c, i) && a.sessions[i].poll.ff == SendingNack
    ensures AckedOk(b, c)
  {
    forall i | InCluster(b, c, i)
      ensures VoteFieldsOnly(a.sessions[i], b.sessions[i])
    {
    }
  }

  lemma AcknowledgeAcked(st: State, slot: nat)
    requires slot < |st.sessions| && ValidTrigger(st, StoredTrigger(st, slot, false)) && Acked(st)
    ensures Acked(Acknowledge(st, slot))
  {
    var st' := Acknowledge(st, slot);
    var c := st.sessions[slot].cluster;
    AcknowledgeIsFfStep(st, slot);
    forall d | 0 <= d < |st.clusters|
      ensures AckedOk(st', d)
    {
      assert AckedOk(st, d);
      if d != c {
        FfStepOthers(st, st', c, d);
      } else {
        AcknowledgeShrinks(st, slot);
        ShrinkAcked(st, st', c);
      }
    }
  }

  lemma AcknowledgeShrinks(st: State, slot: nat)
    requires slot < |st.sessions| && ValidTrigger(st, StoredTrigger(st, slot, false))
    ensures var st' := Acknowledge(st, slot);
            var c := st.sessions[slot].cluster;
            && |st'.clusters| == |st.clusters|
            && st'.clusters[c].quorate == st.clusters[c].quorate
            && (st'.clusters[c].state == WaitingForStable <==> st.clusters[c].state == WaitingForStable)
            && (forall i :: Holder(st', c, i) ==> Holder(st, c, i))
            && (forall i :: InCluster(st', c, i) && st'.sessions[i].poll.ff == SendingNack
                            ==> InCluster(st, c, i) && st.sessions[i].poll.ff == SendingNack)
  {
    var s1 := SetSession(st, slot, st.sessions[slot].(poll := st.sessions[slot].poll.(ff := Waiting)));
    PassEffect(s1, StoredTrigger(s1, slot, false));
  }
}
