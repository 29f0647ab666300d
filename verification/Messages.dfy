/** Every message keeps the invariant. */
module Messages {
  import opened Wire
  import opened Msg
  import opened ServerState
  import opened Votes
  import opened Protocol
  import opened Invariants
  import opened Preservation

  /** An INIT that reaches an active session repeats the session's own node id and ring. */
  predicate CleanMsg(s: Session, t: u16, m: Decoded) {
    t == INIT && s.phase == Active ==> m.nodeId == s.nodeId && m.ring == s.ring
  }

  lemma BookIndexed(st: State)
    requires Book(st)
    ensures Indexed(st)
  {
    forall i | 0 <= i < |st.sessions| && st.sessions[i].phase == Active
      ensures 0 <= st.sessions[i].cluster < |st.clusters|
    {
      assert MemberOk(st, i);
    }
  }

  lemma AnswerInv(st: State, slot: nat, s': Session, frame: Reply, clean: bool)
    requires slot < |st.sessions| && Inv(st, clean) && Alike(st.sessions[slot], s', clean) && SessionOk(s')
    ensures Inv(Answer(st, slot, s', frame), clean)
  {
    EditInv(st, slot, s', clean);
    InvSame(SetSession(st, slot, s'), Answer(st, slot, s', frame), clean);
  }

  lemma PreinitInv(st: State, slot: nat, m: Decoded, clean: bool)
    requires Open(st, slot) && Indexed(st) && Inv(st, clean)
    ensures Inv(HandlePreinit(st, slot, m), clean)
  {
    var s := st.sessions[slot];
    assert SessionOk(s);
    if m.clusterName == [] || s.phase != WaitPreinit {
      InvSame(st, HandlePreinit(st, slot, m), clean);
    } else {
      AnswerInv(st, slot, s.(clusterName := m.clusterName, phase := WaitInit),
                PreinitReply(m.seqNumberSet, m.seqNumber, 0, 0), clean);
    }
  }

  lemma SetOptionInv(st: State, slot: nat, m: Decoded, now: nat, clean: bool)
    requires Open(st, slot) && Indexed(st) && Inv(st, clean) && st.sessions[slot].phase == Active
    ensures Inv(HandleSetOption(st, slot, m, now), clean)
  {
    var s := st.sessions[slot];
    assert SessionOk(s);
    if m.heartbeatSet && (m.heartbeat < HEARTBEAT_MIN_MS || m.heartbeat > HEARTBEAT_MAX_MS) {
      InvSame(st, HandleSetOption(st, slot, m, now), clean);
    } else {
      var s' := WithOptions(s, m, now);
      AnswerInv(st, slot, s', SetOptionReply(m.seqNumberSet, m.seqNumber, m.heartbeatSet, s'.heartbeat,
                                             m.keepActive.Some?, if s'.keepActive then 1 else 0), clean);
    }
  }

  // ---------------------------------------------------------------- INIT

  lemma InitFieldsOk(s: Session, m: Decoded, clean: bool)
    requires SessionOk(s) && s.phase != Free && (clean ==> CleanMsg(s, INIT, m))
    ensures var (s', code) := InitFields(s, m);
            && Alike(s, s', clean) && SessionOk(s')
            && (code == NoError ==>
                  && s.phase != Active && s'.phase == s.phase && s'.clusterName == s.clusterName
                  && s'.algorithm == FFSPLIT
                  && HEARTBEAT_MIN_MS <= s'.heartbeat <= HEARTBEAT_MAX_MS)
  {
  }

  /** Admission without conflict is a join in the sense of `Joined`. */
  lemma AdmitJoins(st: State, slot: nat, s: Session, now: nat)
    requires slot < |st.sessions| && Book(st) && st.sessions[slot].phase != Active && s.phase != Free
    requires SessionOk(s) && s.phase != Active && s.algorithm == FFSPLIT
    requires HEARTBEAT_MIN_MS <= s.heartbeat <= HEARTBEAT_MAX_MS
    requires FirstConflict(st, slot, s, 0) == NoError
    ensures var (cs, s', code) := Admit(st.clusters, s, now);
            code == NoError ==> Joined(st, SetSession(st.(clusters := cs), slot, s'), slot, s'.cluster)
  {
    var (cs, s', code) := Admit(st.clusters, s, now);
    if code == NoError {
      var c := s'.cluster;
      assert RecordOk(st, c);
      NoConflict(st, slot, s, 0);
      forall i | 0 <= i < |st.sessions|
        ensures Conflict(st, slot, s', i) == NoError
      {
        assert Conflict(st, slot, s, i) == NoError;
      }
    }
  }

  lemma InitInv(st: State, slot: nat, m: Decoded, now: nat, maxRx: u32, clean: bool)
    requires Open(st, slot) && Indexed(st) && Inv(st, clean)
    requires clean ==> CleanMsg(st.sessions[slot], INIT, m)
    ensures Inv(HandleInit(st, slot, m, now, maxRx), clean)
  {
    var (s, code) := InitFields(st.sessions[slot], m);
    var (cs, s', code') := InitOutcome(st, slot, m, now);
    var fin := SetSession(st.(clusters := cs), slot, s');
    assert SessionOk(st.sessions[slot]);
    InitFieldsOk(st.sessions[slot], m, clean);
    if code' == NoError {
      AdmitJoins(st, slot, s, now);
      JoinedInv(st, fin, slot, s'.cluster, clean);
    } else {
      EditInv(st, slot, s', clean);
      InvSame(SetSession(st, slot, s'), fin, clean);
    }
    InvSame(fin, HandleInit(st, slot, m, now, maxRx), clean);
  }

  // ---------------------------------------------------------------- lists and heuristics

  /** New lists for a session that no algorithm run has seen: a holder keeps its ring and
      membership. */
  lemma ListEditInv(st: State, slot: nat, s': Session, clean: bool)
    requires slot < |st.sessions| && Inv(st, clean) && SessionOk(s')
    requires SamePlace(st.sessions[slot], s') && s'.phase == Active && s'.poll.ff == st.sessions[slot].poll.ff
    requires clean ==>
               && s'.nodeId == st.sessions[slot].nodeId && SelfListed(s')
               && s'.poll.lastAckNack == st.sessions[slot].poll.lastAckNack
               && (Holds(st.sessions[slot]) ==>
                     s'.ring == st.sessions[slot].ring && s'.membership == st.sessions[slot].membership
                         && s'.config != [])
    ensures Inv(SetSession(st, slot, s'), clean)
  {
    var st' := SetSession(st, slot, s');
    forall i | 0 <= i < |st.sessions|
      ensures Alike(st.sessions[i], st'.sessions[i], false) && SessionOk(st'.sessions[i])
    {
      assert SessionOk(st.sessions[i]);
    }
    AlikeInv(st, st', false);
    if clean {
      AlikePlaces(st, st', false);
      forall i | 0 <= i < |st.sessions|
        ensures SelfListed(st'.sessions[i])
      {
        assert SelfListed(st.sessions[i]);
      }
      PlaceIdentity(st, st');
      forall c | 0 <= c < |st.clusters|
        ensures AckedOk(st', c)
      {
        assert AckedOk(st, c);
        assert forall i :: Holder(st', c, i) <==> Holder(st, c, i);
      }
    }
  }

  lemma StoreInv(st: State, st1: State, slot: nat, m: Decoded, s: Session, result: Vote, clean: bool)
    requires Open(st, slot) && Indexed(st) && m.listType.Some?
    requires VoteStep(st, st1) && Edit(st, st.sessions[slot], s)
    requires Inv(SetSession(st1, slot, Answered(s, result)), clean)
    ensures Inv(StoreAndReply(st, st1, slot, m, s, result), clean)
  {
    InvSame(SetSession(st1, slot, Answered(s, result)), StoreAndReply(st, st1, slot, m, s, result), clean);
  }

  /** A run of the algorithm followed by storing the incoming lists. */
  lemma RunAndStore(st: State, tv: Trigger, s: Session, clean: bool)
    requires Inv(st, clean) && ValidTrigger(st, tv) && !tv.leaving && (clean ==> GoodTrigger(st, tv))
    requires VoteStep(st, FfsplitDo(st, tv).0)
    requires s == FfsplitDo(st, tv).0.sessions[tv.slot].(ring := tv.ring, config := tv.config,
                                                        membership := tv.membership, heuristics := tv.heuristics)
    ensures Inv(SetSession(FfsplitDo(st, tv).0, tv.slot, Answered(s, FfsplitDo(st, tv).1)), clean)
  {
    TriggerInv(st, tv, Answered(s, FfsplitDo(st, tv).1), clean);
  }

  lemma MembershipInv(st: State, slot: nat, m: Decoded, clean: bool)
    requires Open(st, slot) && Indexed(st) && Inv(st, clean) && st.sessions[slot].phase == Active
    requires Has(m.nodes, st.sessions[slot].nodeId)
    ensures var (st1, result) := MembershipReceived(st, slot, m);
            && VoteStep(st, st1)
            && var s := st1.sessions[slot].(membership := m.nodes, ring := m.ring, heuristics := m.heuristics);
               Inv(SetSession(st1, slot, Answered(s, result)), clean)
  {
    var s0 := st.sessions[slot];
    MembershipVoteStep(st, slot, m);
    var (st1, result) := MembershipReceived(st, slot, m);
    var s := st1.sessions[slot].(membership := m.nodes, ring := m.ring, heuristics := m.heuristics);
    assert SessionOk(s0) && (clean ==> SelfListed(s0));
    if s0.config == [] {
      if clean {
        assert AckedOk(st, s0.cluster);
        assert !Holder(st, s0.cluster, slot);
      }
      ListEditInv(st, slot, Answered(s, result), clean);
    } else {
      RunAndStore(st, Trigger(slot, false, m.ring, s0.config, m.nodes, m.heuristics), s, clean);
    }
  }

  lemma ConfigInv(st: State, slot: nat, m: Decoded, clean: bool)
    requires Open(st, slot) && Indexed(st) && Inv(st, clean) && st.sessions[slot].phase == Active
    requires Has(m.nodes, st.sessions[slot].nodeId)
    ensures var (st1, result) := ConfigReceived(st, slot, m);
            && VoteStep(st, st1)
            && Inv(SetSession(st1, slot, Answered(st1.sessions[slot].(config := m.nodes), result)), clean)
  {
    var s0 := st.sessions[slot];
    ConfigVoteStep(st, slot, m);
    var (st1, result) := ConfigReceived(st, slot, m);
    var s := st1.sessions[slot].(config := m.nodes);
    assert SessionOk(s0) && (clean ==> SelfListed(s0));
    if m.listType == Some(InitialConfig) || s0.membership == [] {
      ListEditInv(st, slot, Answered(s, result), clean);
    } else {
      RunAndStore(st, Trigger(slot, false, s0.ring, m.nodes, s0.membership, s0.heuristics), s, clean);
    }
  }

  lemma NodeListInv(st: State, slot: nat, m: Decoded, clean: bool)
    requires Open(st, slot) && Indexed(st) && Inv(st, clean) && st.sessions[slot].phase == Active
    ensures Inv(HandleNodeList(st, slot, m), clean)
  {
    var s0 := st.sessions[slot];
    assert SessionOk(s0);
    if m.listType.None? || !m.seqNumberSet {
      InvSame(st, HandleNodeList(st, slot, m), clean);
    } else if m.listType.value == Membership && m.ringSet && Has(m.nodes, s0.nodeId) {
      MembershipInv(st, slot, m, clean);
      var (st1, result) := MembershipReceived(st, slot, m);
      StoreInv(st, st1, slot, m, st1.sessions[slot].(membership := m.nodes, ring := m.ring, heuristics := m.heuristics),
               result, clean);
    } else if m.listType.value == Quorum && m.quorate.Some? {
      EditInv(st, slot, Answered(s0, NoChange), clean);
      StoreInv(st, st, slot, m, s0, NoChange, clean);
    } else if m.listType.value != Membership && m.listType.value != Quorum && Has(m.nodes, s0.nodeId) {
      ConfigInv(st, slot, m, clean);
      var (st1, result) := ConfigReceived(st, slot, m);
      StoreInv(st, st1, slot, m, st1.sessions[slot].(config := m.nodes), result, clean);
    } else {
      InvSame(st, HandleNodeList(st, slot, m), clean);
    }
  }

  lemma HeuristicsInv(st: State, slot: nat, m: Decoded, clean: bool)
    requires Open(st, slot) && Indexed(st) && Inv(st, clean) && st.sessions[slot].phase == Active
    ensures Inv(HandleHeuristicsChange(st, slot, m), clean)
  {
    var s0 := st.sessions[slot];
    assert SessionOk(s0) && (clean ==> SelfListed(s0));
    if !m.seqNumberSet || m.heuristics == HeurUndefined {
      InvSame(st, HandleHeuristicsChange(st, slot, m), clean);
    } else {
      HeuristicsVoteStep(st, slot, m.heuristics);
      var (st1, result) := HeuristicsReceived(st, slot, m.heuristics);
      var s := st1.sessions[slot].(heuristics := m.heuristics);
      if s0.config == [] || s0.membership == [] {
        EditInv(st, slot, Answered(s, result), clean);
      } else {
        RunAndStore(st, Trigger(slot, false, s0.ring, s0.config, s0.membership, m.heuristics), s, clean);
      }
      InvSame(SetSession(st1, slot, Answered(s, result)), HandleHeuristicsChange(st, slot, m), clean);
    }
  }

  lemma VoteInfoReplyInv(st: State, slot: nat, m: Decoded, clean: bool)
    requires Open(st, slot) && Indexed(st) && Inv(st, clean) && st.sessions[slot].phase == Active
    ensures Inv(HandleVoteInfoReply(st, slot, m), clean)
  {
    if !m.seqNumberSet || m.seqNumber != st.sessions[slot].poll.voteSeq {
      InvSame(st, HandleVoteInfoReply(st, slot, m), clean);
    } else {
      var c := st.sessions[slot].cluster;
      AcknowledgeIsFfStep(st, slot);
      assert slot in Members(st, c);
      FfStepBook(st, Acknowledge(st, slot), c);
      AcknowledgeWork(st, slot);
      if clean {
        FfStepIdentity(st, Acknowledge(st, slot), c);
        AcknowledgeAcked(st, slot);
      }
    }
  }

  /** Every message, in every phase, keeps the invariant. */
  lemma HandleMsgInv(st: State, slot: nat, t: u16, m: Decoded, frame: seq<byte>, now: nat, maxRx: u32, clean: bool)
    requires Open(st, slot) && Indexed(st) && Inv(st, clean)
    requires clean ==> CleanMsg(st.sessions[slot], t, m)
    ensures Inv(HandleMsg(st, slot, t, m, frame, now, maxRx), clean)
  {
    var s := st.sessions[slot];
    if t != PREINIT && s.phase == WaitPreinit {
      InvSame(st, HandleMsg(st, slot, t, m, frame, now, maxRx), clean);
    } else if t == PREINIT {
      PreinitInv(st, slot, m, clean);
    } else if t == INIT {
      InitInv(st, slot, m, now, maxRx, clean);
    } else if s.phase == Active && t == SET_OPTION {
      SetOptionInv(st, slot, m, now, clean);
    } else if s.phase == Active && t == NODE_LIST {
      NodeListInv(st, slot, m, clean);
    } else if s.phase == Active && t == VOTE_INFO_REPLY {
      VoteInfoReplyInv(st, slot, m, clean);
    } else if s.phase == Active && t == HEURISTICS_CHANGE {
      HeuristicsInv(st, slot, m, clean);
    } else {
      InvSame(st, HandleMsg(st, slot, t, m, frame, now, maxRx), clean);
    }
  }
}
