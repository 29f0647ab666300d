/** What one step of the server means to its peers: which vote-infos it emits, and how the voting
    fields move with them. */
module Effects {
  import opened Wire
  import opened Msg
  import opened ServerState
  import opened Stability
  import opened Selection
  import opened Votes
  import opened Protocol
  import opened Events
  import opened Invariants
  import opened Preservation
  import opened Messages

  /** The vote-infos emitted to `slot` between `a` and `b`. */
  function NewVotes(a: State, b: State, slot: nat): (r: seq<Reply>)
    requires a.out <= b.out
    ensures forall k :: 0 <= k < |r| ==> r[k].VoteInfo?
  {
    VotesToAreVotes(b.out[|a.out|..], slot);
    VotesTo(b.out[|a.out|..], slot)
  }

  lemma NewVotesOf(a: State, b: State, e: seq<Event>, slot: nat)
    requires b.out == a.out + e
    ensures a.out <= b.out && NewVotes(a, b, slot) == VotesTo(e, slot)
  {
    assert (a.out + e)[|a.out|..] == e;
  }

  /** An event that is not a vote-info adds none. */
  lemma AnswerVotes(a: State, b: State, b': State, ev: Event, slot: nat)
    requires a.out <= b.out && b'.out == b.out + [ev] && (ev.Send? ==> !ev.frame.VoteInfo?)
    ensures a.out <= b'.out && NewVotes(a, b', slot) == NewVotes(a, b, slot)
  {
    var e := b.out[|a.out|..];
    assert b'.out[|a.out|..] == e + [ev];
    assert (e + [ev])[..|e|] == e;
  }

  // ---------------------------------------------------------------- calm steps

  /** Same cluster, node and voting fields. */
  predicate SameVoting(s: Session, s': Session) {
    && s'.phase == Active && s'.cluster == s.cluster && s'.nodeId == s.nodeId
    && s'.poll.ff == s.poll.ff && s'.poll.voteSeq == s.poll.voteSeq && s'.poll.lastAckNack == s.poll.lastAckNack
  }

  ghost predicate Unsettled(st: State, c: int) {
    0 <= c < |st.clusters| && st.clusters[c].state == WaitingForStable
  }

  /** Session `i` through a calm step: an active session keeps its voting fields, and its ring too
      if it holds or awaits an ACK of a decision that still stands; a new one has none. */
  ghost predicate CalmAt(a: State, b: State, i: nat)
    requires i < |a.sessions| && i < |b.sessions|
  {
    var (s, s') := (a.sessions[i], b.sessions[i]);
    && (s.phase == Active ==>
          SameVoting(s, s') && (s'.ring == s.ring || !Holds(s) || Unsettled(b, s'.cluster)))
    && (s.phase != Active && s'.phase == Active ==> s'.poll == NoPoll)
  }

  /** No decision, no vote-info, and no change to anybody's voting fields. */
  ghost predicate Calm(a: State, b: State) {
    && |b.sessions| == |a.sessions| && |b.clusters| == |a.clusters|
    && a.out <= b.out && b.decisions == a.decisions
    && (forall i :: 0 <= i < |a.sessions| ==> CalmAt(a, b, i) && NewVotes(a, b, i) == [])
    && (forall c :: 0 <= c < |a.clusters| ==>
          && b.clusters[c].quorate == a.clusters[c].quorate
          && (b.clusters[c].state == a.clusters[c].state || Unsettled(b, c))
          && (a.clusters[c].used ==> b.clusters[c].used))
  }

  lemma CalmAnswer(a: State, slot: nat, s': Session, frame: Reply)
    requires slot < |a.sessions| && !frame.VoteInfo?
    requires a.sessions[slot].phase == Active ==>
               SameVoting(a.sessions[slot], s') && (s'.ring == a.sessions[slot].ring || !Holds(a.sessions[slot]))
    requires a.sessions[slot].phase != Active && s'.phase == Active ==> s'.poll == NoPoll
    ensures Calm(a, Answer(a, slot, s', frame))
  {
    var b := Answer(a, slot, s', frame);
    forall i | 0 <= i < |a.sessions|
      ensures CalmAt(a, b, i) && NewVotes(a, b, i) == []
    {
      AnswerVotes(a, a, b, Send(slot, frame), i);
    }
  }

  lemma CalmError(a: State, slot: nat, m: Decoded, code: ErrorCode)
    requires slot < |a.sessions|
    ensures Calm(a, SendErr(a, slot, m, code))
  {
    var frame := ServerErrorReply(m.seqNumberSet, m.seqNumber, code);
    CalmAnswer(a, slot, a.sessions[slot], frame);
    assert a.sessions[slot := a.sessions[slot]] == a.sessions;
    assert SendErr(a, slot, m, code) == Answer(a, slot, a.sessions[slot], frame);
  }

  /** Neither polls nor answers of an INIT touch anybody's votes. */
  lemma CalmInit(st: State, slot: nat, m: Decoded, now: nat, maxRx: u32)
    requires Open(st, slot) && Indexed(st) && Book(st) && CleanMsg(st.sessions[slot], INIT, m)
    ensures Calm(st, HandleInit(st, slot, m, now, maxRx))
  {
    var (cs, s', code) := InitOutcome(st, slot, m, now);
    var frame := InitReply(m.seqNumberSet, m.seqNumber, code, m.supportedMessages, m.supportedOptions, maxRx, maxRx);
    assert SessionOk(st.sessions[slot]);
    InitFieldsOk(st.sessions[slot], m, true);
    InitKeepsVotes(st.sessions[slot], m);
    CalmAnswer(st, slot, s', frame);
    var b := HandleInit(st, slot, m, now, maxRx);
    assert b == Answer(st, slot, s', frame).(clusters := cs);
    forall c | 0 <= c < |st.clusters|
      ensures cs[c].quorate == st.clusters[c].quorate && cs[c].state == st.clusters[c].state
      ensures st.clusters[c].used ==> cs[c].used
    {
      assert RecordOk(st, c);
    }
    forall i | 0 <= i < |st.sessions|
      ensures CalmAt(st, b, i) && NewVotes(st, b, i) == []
    {
      assert CalmAt(st, Answer(st, slot, s', frame), i) && NewVotes(st, Answer(st, slot, s', frame), i) == [];
    }
  }

  lemma InitKeepsVotes(s: Session, m: Decoded)
    ensures InitFields(s, m).0.poll == s.poll
    ensures s.phase == Active ==> InitFields(s, m).0 == s.(nodeId := m.nodeId, ring := m.ring)
  {
  }

  // ---------------------------------------------------------------- decisions

  /** The vote-info a decision sends to participant `i` at once, if any. */
  ghost function DecisionNews(st: State, tv: Trigger, w: Option<NodeList>, i: nat): (r: seq<Reply>)
    requires ValidTrigger(st, tv) && i < |st.sessions|
  {
    if !Takes(st, tv, i) then []
    else if !Wins(w, st.sessions[i].nodeId) then [VoteFrame(st, tv, false, i)]
    else if AnyLoser(st, tv, w) then []
    else [VoteFrame(st, tv, true, i)]
  }

  lemma DecisionVotes(st: State, tv: Trigger, w: Option<NodeList>, st': State, i: nat)
    requires ValidTrigger(st, tv) && DecisionShape(st, tv, w, st') && i < |st.sessions|
    ensures st.out <= st'.out && NewVotes(st, st', i) == DecisionNews(st, tv, w, i)
  {
    var m := Mark(st, tv, w);
    var acks := !AnyLoser(st, tv, w);
    MarkedIsDue(st, tv, w, m);
    NewVotesOf(st, st', VoteEvents(m, tv, acks, |st.sessions|), i);
    VotesToOfPass(m, tv, acks, |st.sessions|, i);
    DueNews(st, tv, w, i);
  }

  /** The vote-info due to participant `i` once everybody is marked. */
  lemma DueNews(st: State, tv: Trigger, w: Option<NodeList>, i: nat)
    requires ValidTrigger(st, tv) && ValidTrigger(Mark(st, tv, w), tv) && i < |st.sessions|
    ensures var m := Mark(st, tv, w);
            var acks := !AnyLoser(st, tv, w);
            DecisionNews(st, tv, w, i) == if Due(m, tv, acks, i) then [VoteFrame(m, tv, acks, i)] else []
  {
    var m := Mark(st, tv, w);
    MarkedIsDue(st, tv, w, m);
    assert m.sessions[i] == Marked(st, tv, w, i);
    if Takes(st, tv, i) && !Wins(w, st.sessions[i].nodeId) {
      assert AnyLoser(st, tv, w);
    }
  }

  /** Session `i` of the cluster after the decision of `tv` for `w`, its news delivered. */
  ghost predicate DecidedAt(a: State, tv: Trigger, w: Option<NodeList>, b: State, i: nat)
    requires ValidTrigger(a, tv) && i < |a.sessions| && i < |b.sessions| && a.out <= b.out
  {
    && Takes(a, tv, i)
    && b.sessions[i].nodeId == a.sessions[i].nodeId
    && b.sessions[i].ring == EffRing(a, tv, i)
    && b.sessions[i].poll.ff == Decided(a, tv, w, i).poll.ff
    && b.sessions[i].poll.voteSeq == Decided(a, tv, w, i).poll.voteSeq
    && b.sessions[i].poll.lastAckNack == Decided(a, tv, w, i).poll.lastAckNack
    && NewVotes(a, b, i) == DecisionNews(a, tv, w, i)
  }

  /** Session `i` of another cluster keeps its votes and its ring; outside cluster `c` nobody is
      sent anything. */
  ghost predicate Elsewhere(a: State, b: State, c: int, i: nat)
    requires i < |a.sessions| && i < |b.sessions| && a.out <= b.out
  {
    && (b.sessions[i].phase == Active && b.sessions[i].cluster != c ==>
          InCluster(a, b.sessions[i].cluster, i) && SameVoting(a.sessions[i], b.sessions[i])
          && b.sessions[i].ring == a.sessions[i].ring)
    && (!InCluster(b, c, i) ==> NewVotes(a, b, i) == [])
  }

  /** Session `i` neither joins nor leaves. */
  ghost predicate Stays(a: State, b: State, i: nat)
    requires i < |a.sessions| && i < |b.sessions|
  {
    b.sessions[i].phase == a.sessions[i].phase && b.sessions[i].cluster == a.sessions[i].cluster
  }

  /** A decision took place in cluster `c` and nowhere else. */
  ghost predicate Decides(a: State, tv: Trigger, w: Option<NodeList>, b: State) {
    && ValidTrigger(a, tv)
    && |b.sessions| == |a.sessions| && |b.clusters| == |a.clusters|
    && a.out <= b.out && b.decisions == Succ32(a.decisions)
    && var c := TriggerCluster(a, tv);
    && a.clusters[c].used
    && (b.clusters[c].used ==> b.clusters[c].quorate == (if w.Some? then w.value else []))
    && (b.clusters[c].used ==> b.clusters[c].state == DecidedState(a, tv, w))
    && (!b.clusters[c].used ==> b.clusters[c] == NoCluster)
    && (forall d :: 0 <= d < |a.clusters| && d != c ==> b.clusters[d] == a.clusters[d])
    && (forall i :: InCluster(b, c, i) ==> DecidedAt(a, tv, w, b, i))
    && (forall i :: 0 <= i < |a.sessions| ==> Elsewhere(a, b, c, i))
    && (forall i :: 0 <= i < |a.sessions| && !(tv.leaving && i == tv.slot) ==> Stays(a, b, i))
  }

  /** Nobody outside the deciding cluster is touched by the decision. */
  lemma OthersUntouched(st: State, tv: Trigger, w: Option<NodeList>, st1: State, i: nat)
    requires ValidTrigger(st, tv) && DecisionShape(st, tv, w, st1) && i < |st.sessions|
    ensures VoteFieldsOnly(st.sessions[i], st1.sessions[i])
    ensures !InCluster(st, TriggerCluster(st, tv), i) ==> st1.sessions[i] == st.sessions[i]
  {
    assert st1.sessions[i] == Decided(st, tv, w, i);
  }

  /** What follows the decision in the same step: the trigger's lists are stored, or the leaving
      client is dropped. */
  ghost predicate Finishes(st: State, tv: Trigger, st1: State, fin: State)
    requires ValidTrigger(st, tv) && |st1.sessions| == |st.sessions|
  {
    var c := TriggerCluster(st, tv);
    && |fin.sessions| == |st.sessions| && |fin.clusters| == |st.clusters| && |st1.clusters| == |st.clusters|
    && fin.decisions == st1.decisions
    && (forall i :: 0 <= i < |st.sessions| && i != tv.slot ==> fin.sessions[i] == st1.sessions[i])
    && (if tv.leaving then fin.sessions[tv.slot] == FreshSession
        else StoredBy(st1.sessions[tv.slot], tv, fin.sessions[tv.slot]))
    && (forall d :: 0 <= d < |st.clusters| && d != c ==> fin.clusters[d] == st1.clusters[d])
    && (fin.clusters[c] == NoCluster
        || fin.clusters[c] == st1.clusters[c].(members := fin.clusters[c].members))
  }

  lemma FinishedDecides(st: State, tv: Trigger, w: Option<NodeList>, st1: State, fin: State)
    requires ValidTrigger(st, tv) && DecisionShape(st, tv, w, st1) && Finishes(st, tv, st1, fin)
    requires st.clusters[TriggerCluster(st, tv)].used && (tv.leaving ==> DistinctIds(st, TriggerCluster(st, tv)))
    requires st.out <= fin.out
    requires forall i :: 0 <= i < |st.sessions| ==> NewVotes(st, fin, i) == DecisionNews(st, tv, w, i)
    ensures Decides(st, tv, w, fin)
  {
    var c := TriggerCluster(st, tv);
    forall i | 0 <= i < |st.sessions|
      ensures VoteFieldsOnly(st.sessions[i], st1.sessions[i]) && st1.sessions[i] == Decided(st, tv, w, i)
      ensures !InCluster(st, c, i) ==> st1.sessions[i] == st.sessions[i]
    {
      OthersUntouched(st, tv, w, st1, i);
    }
    forall i | InCluster(fin, c, i)
      ensures DecidedAt(st, tv, w, fin, i)
    {
      assert InCluster(st, c, i);
    }
    forall i | 0 <= i < |st.sessions|
      ensures Elsewhere(st, fin, c, i)
    {
      assert !InCluster(fin, c, i) ==> !Takes(st, tv, i);
    }
    forall i | 0 <= i < |st.sessions| && !(tv.leaving && i == tv.slot)
      ensures Stays(st, fin, i)
    {
    }
  }

  /** A stable trigger decides; its lists are stored and it is answered. */
  lemma TriggerDecides(st: State, tv: Trigger, s': Session, frame: Reply)
    requires Book(st) && ValidTrigger(st, tv) && !tv.leaving && Stable(st, tv) && !frame.VoteInfo?
    requires |FfsplitDo(st, tv).0.sessions| == |st.sessions|
    requires StoredBy(FfsplitDo(st, tv).0.sessions[tv.slot], tv, s')
    ensures Decides(st, tv, Winner(st, tv), Answer(FfsplitDo(st, tv).0, tv.slot, s', frame))
  {
    var w := Winner(st, tv);
    var st1 := FfsplitDo(st, tv).0;
    DecisionEffect(st, tv, w);
    assert MemberOk(st, tv.slot);
    AnsweredDecides(st, tv, w, st1, s', frame);
  }

  lemma AnsweredDecides(st: State, tv: Trigger, w: Option<NodeList>, st1: State, s': Session, frame: Reply)
    requires ValidTrigger(st, tv) && !tv.leaving && DecisionShape(st, tv, w, st1) && !frame.VoteInfo?
    requires st.clusters[TriggerCluster(st, tv)].used
    requires StoredBy(st1.sessions[tv.slot], tv, s')
    ensures Decides(st, tv, w, Answer(st1, tv.slot, s', frame))
  {
    var fin := Answer(st1, tv.slot, s', frame);
    forall i | 0 <= i < |st.sessions|
      ensures st.out <= fin.out && NewVotes(st, fin, i) == DecisionNews(st, tv, w, i)
    {
      DecisionVotes(st, tv, w, st1, i);
      AnswerVotes(st, st1, fin, Send(tv.slot, frame), i);
    }
    FinishedDecides(st, tv, w, st1, fin);
  }

  /** An unstable trigger only records that the membership is unsettled. */
  lemma TriggerUnsettles(st: State, tv: Trigger, s': Session, frame: Reply)
    requires Book(st) && ValidTrigger(st, tv) && !tv.leaving && !Stable(st, tv) && !frame.VoteInfo?
    requires StoredBy(st.sessions[tv.slot], tv, s')
    ensures Calm(st, Answer(FfsplitDo(st, tv).0, tv.slot, s', frame))
  {
    var st1 := FfsplitDo(st, tv).0;
    var fin := Answer(st1, tv.slot, s', frame);
    forall i | 0 <= i < |st.sessions|
      ensures CalmAt(st, fin, i) && NewVotes(st, fin, i) == []
    {
      AnswerVotes(st, st1, fin, Send(tv.slot, frame), i);
    }
  }

  // ---------------------------------------------------------------- closing

  /** A stable close decides without the leaving session. */
  lemma CloseDecides(st: State, slot: nat, evict: bool)
    requires slot < |st.sessions| && st.sessions[slot].phase == Active && Indexed(st) && Book(st) && Identity(st)
    requires Stable(st, StoredTrigger(st, slot, true))
    ensures Decides(st, StoredTrigger(st, slot, true), Winner(st, StoredTrigger(st, slot, true)),
        Ended(st, slot, evict))
  {
    var tv := StoredTrigger(st, slot, true);
    var w := Winner(st, tv);
    var st1 := FfsplitDo(st, tv).0;
    var fin := Ended(st, slot, evict);
    DecisionEffect(st, tv, w);
    assert MemberOk(st, slot);
    assert DistinctIds(st, TriggerCluster(st, tv));
    CloseIsGone(st, slot);
    forall i | 0 <= i < |st.sessions|
      ensures st.out <= fin.out && NewVotes(st, fin, i) == DecisionNews(st, tv, w, i)
    {
      DecisionVotes(st, tv, w, st1, i);
      if evict {
        AnswerVotes(st, st1, fin, Close(slot), i);
      }
    }
    FinishedDecides(st, tv, w, st1, fin);
  }

  /** Closing a session that takes part in no decision is calm for the others. */
  ghost predicate CalmClose(a: State, b: State, slot: nat) {
    && slot < |a.sessions| && |b.sessions| == |a.sessions| && |b.clusters| == |a.clusters|
    && a.out <= b.out && b.decisions == a.decisions
    && b.sessions[slot] == FreshSession
    && (forall i :: 0 <= i < |a.sessions| ==> NewVotes(a, b, i) == [])
    && (forall i :: 0 <= i < |a.sessions| && i != slot ==> b.sessions[i] == a.sessions[i])
    && (forall c :: 0 <= c < |a.clusters| ==>
          || b.clusters[c] == a.clusters[c]
          || b.clusters[c] == NoCluster
          || (Unsettled(b, c) && b.clusters[c].quorate == a.clusters[c].quorate
              && b.clusters[c].used == a.clusters[c].used))
  }

  lemma CloseIsCalm(st: State, slot: nat, evict: bool)
    requires Open(st, slot) && Indexed(st)
    requires st.sessions[slot].phase == Active ==> !Stable(st, StoredTrigger(st, slot, true))
    ensures CalmClose(st, Ended(st, slot, evict), slot)
  {
    var fin := Ended(st, slot, evict);
    forall i | 0 <= i < |st.sessions|
      ensures st.out <= fin.out && NewVotes(st, fin, i) == []
    {
      NewVotesOf(st, st, [], i);
      if evict {
        AnswerVotes(st, st, fin, Close(slot), i);
      }
    }
  }

  // ---------------------------------------------------------------- the ring of a vote-info

  /** Every vote-info sent to slot `i` carries the ring its session has after the step. */
  ghost predicate RightRing(a: State, b: State, i: nat)
    requires i < |b.sessions| && a.out <= b.out
  {
    forall k :: 0 <= k < |NewVotes(a, b, i)| ==> NewVotes(a, b, i)[k].ring == b.sessions[i].ring
  }

  /** A run of the algorithm followed by storing `s'` for the trigger, unless it leaves. */
  lemma RunRings(st: State, tv: Trigger, b: State, i: nat)
    requires ValidTrigger(st, tv) && i < |st.sessions| == |b.sessions| && st.out <= b.out
    requires forall k :: 0 <= k < |st.sessions| ==> NewVotes(st, b, k) == NewVotes(st, FfsplitDo(st, tv).0, k)
    requires i != tv.slot ==> b.sessions[i].ring == st.sessions[i].ring
    requires !tv.leaving ==> b.sessions[tv.slot].ring == tv.ring
    ensures RightRing(st, b, i)
  {
    if Stable(st, tv) {
      DecisionEffect(st, tv, Winner(st, tv));
      DecisionVotes(st, tv, Winner(st, tv), FfsplitDo(st, tv).0, i);
    } else {
      NewVotesOf(st, FfsplitDo(st, tv).0, [], i);
    }
  }

  // ---------------------------------------------------------------- messages

  lemma RunEffect(st: State, tv: Trigger, s: Session, frame: Reply)
    requires Book(st) && ValidTrigger(st, tv) && !tv.leaving && !frame.VoteInfo?
    requires VoteStep(st, FfsplitDo(st, tv).0)
    requires s == FfsplitDo(st, tv).0.sessions[tv.slot].(ring := tv.ring, config := tv.config,
                                                        membership := tv.membership, heuristics := tv.heuristics)
    ensures var fin := Answer(FfsplitDo(st, tv).0, tv.slot, Answered(s, FfsplitDo(st, tv).1), frame);
            if Stable(st, tv) then Decides(st, tv, Winner(st, tv), fin) else Calm(st, fin)
  {
    var s' := Answered(s, FfsplitDo(st, tv).1);
    if Stable(st, tv) {
      TriggerDecides(st, tv, s', frame);
    } else {
      TriggerUnsettles(st, tv, s', frame);
    }
  }

  /** What the messages that may run the algorithm do: nothing to the votes, or one decision. */
  ghost predicate CalmOrDecides(st: State, tv: Trigger, b: State) {
    Calm(st, b) || (ValidTrigger(st, tv) && !tv.leaving && Decides(st, tv, Winner(st, tv), b))
  }

  lemma MembershipEffect(st: State, slot: nat, m: Decoded) returns (tv: Trigger)
    requires Open(st, slot) && Indexed(st) && Inv(st, true) && st.sessions[slot].phase == Active
    requires m.listType == Some(Membership) && m.seqNumberSet && m.ringSet && Has(m.nodes, st.sessions[slot].nodeId)
    ensures CalmOrDecides(st, tv, HandleNodeList(st, slot, m)) && tv.slot == slot
  {
    var s0 := st.sessions[slot];
    tv := Trigger(slot, false, m.ring, s0.config, m.nodes, m.heuristics);
    MembershipVoteStep(st, slot, m);
    var (st1, result) := MembershipReceived(st, slot, m);
    var s := st1.sessions[slot].(membership := m.nodes, ring := m.ring, heuristics := m.heuristics);
    var frame := NodeListReply(m.seqNumber, Membership, m.ring, result);
    assert HandleNodeList(st, slot, m) == Answer(st1, slot, Answered(s, result), frame);
    if s0.config == [] {
      assert AckedOk(st, s0.cluster);
      assert !Holder(st, s0.cluster, slot);
      CalmAnswer(st, slot, Answered(s, result), frame);
    } else {
      RunEffect(st, tv, s, frame);
    }
  }

  lemma ConfigEffect(st: State, slot: nat, m: Decoded) returns (tv: Trigger)
    requires Open(st, slot) && Indexed(st) && Inv(st, true) && st.sessions[slot].phase == Active
    requires (m.listType == Some(InitialConfig) || m.listType == Some(ChangedConfig)) && m.seqNumberSet
    requires Has(m.nodes, st.sessions[slot].nodeId)
    ensures CalmOrDecides(st, tv, HandleNodeList(st, slot, m)) && tv.slot == slot
  {
    var s0 := st.sessions[slot];
    tv := Trigger(slot, false, s0.ring, m.nodes, s0.membership, s0.heuristics);
    ConfigVoteStep(st, slot, m);
    var (st1, result) := ConfigReceived(st, slot, m);
    var s := st1.sessions[slot].(config := m.nodes);
    var frame := NodeListReply(m.seqNumber, m.listType.value, s.ring, result);
    assert HandleNodeList(st, slot, m) == Answer(st1, slot, Answered(s, result), frame);
    if m.listType == Some(InitialConfig) || s0.membership == [] {
      CalmAnswer(st, slot, Answered(s, result), frame);
    } else {
      RunEffect(st, tv, s, frame);
    }
  }

  lemma NodeListEffect(st: State, slot: nat, m: Decoded) returns (tv: Trigger)
    requires Open(st, slot) && Indexed(st) && Inv(st, true) && st.sessions[slot].phase == Active
    ensures CalmOrDecides(st, tv, HandleNodeList(st, slot, m)) && tv.slot == slot
  {
    var s0 := st.sessions[slot];
    tv := StoredTrigger(st, slot, false);
    if m.listType.None? || !m.seqNumberSet {
      CalmError(st, slot, m, MissingOption);
    } else if m.listType.value == Membership {
      if !m.ringSet {
        CalmError(st, slot, m, MissingOption);
      } else if !Has(m.nodes, s0.nodeId) {
        CalmError(st, slot, m, InvalidMembershipList);
      } else {
        tv := MembershipEffect(st, slot, m);
      }
    } else if m.listType.value == Quorum {
      if m.quorate.None? {
        CalmError(st, slot, m, MissingOption);
      } else {
        CalmAnswer(st, slot, Answered(s0, NoChange), NodeListReply(m.seqNumber, Quorum, s0.ring, NoChange));
      }
    } else if !Has(m.nodes, s0.nodeId) {
      CalmError(st, slot, m, InvalidConfigList);
    } else {
      tv := ConfigEffect(st, slot, m);
    }
  }

  lemma HeuristicsEffect(st: State, slot: nat, m: Decoded) returns (tv: Trigger)
    requires Open(st, slot) && Indexed(st) && Inv(st, true) && st.sessions[slot].phase == Active
    ensures CalmOrDecides(st, tv, HandleHeuristicsChange(st, slot, m)) && tv.slot == slot
  {
    var s0 := st.sessions[slot];
    tv := Trigger(slot, false, s0.ring, s0.config, s0.membership, m.heuristics);
    if !m.seqNumberSet || m.heuristics == HeurUndefined {
      CalmError(st, slot, m, MissingOption);
    } else {
      HeuristicsVoteStep(st, slot, m.heuristics);
      var (st1, result) := HeuristicsReceived(st, slot, m.heuristics);
      var s := st1.sessions[slot].(heuristics := m.heuristics);
      var frame := HeuristicsChangeReply(m.seqNumberSet, m.seqNumber, result);
      if s0.config == [] || s0.membership == [] {
        CalmAnswer(st, slot, Answered(s, result), frame);
      } else {
        RunEffect(st, tv, s, frame);
      }
    }
  }

  /** A message other than a vote-info reply leaves the votes alone or takes one decision. */
  lemma MsgEffect(st: State, slot: nat, t: u16, m: Decoded, frame: seq<byte>, now: nat, maxRx: u32)
      returns (tv: Trigger)
    requires Open(st, slot) && Indexed(st) && Inv(st, true)
    requires CleanMsg(st.sessions[slot], t, m) && t != VOTE_INFO_REPLY
    ensures CalmOrDecides(st, tv, HandleMsg(st, slot, t, m, frame, now, maxRx)) && tv.slot == slot
  {
    var s := st.sessions[slot];
    tv := StoredTrigger(st, slot, false);
    if t != PREINIT && s.phase == WaitPreinit {
      CalmError(st, slot, m, PreinitRequired);
    } else if t == PREINIT {
      PreinitCalm(st, slot, m);
    } else if t == INIT {
      CalmInit(st, slot, m, now, maxRx);
    } else if s.phase != Active {
      CalmError(st, slot, m, InitRequired);
    } else if t == SET_OPTION {
      SetOptionCalm(st, slot, m, now);
    } else if t == ECHO_REQUEST {
      CalmAnswer(st, slot, s, EchoReply(frame));
      assert st.sessions[slot := s] == st.sessions;
    } else if t == NODE_LIST {
      tv := NodeListEffect(st, slot, m);
    } else if t == HEURISTICS_CHANGE {
      tv := HeuristicsEffect(st, slot, m);
    } else if t == ASK_FOR_VOTE {
      CalmError(st, slot, m, UnsupportedAlgorithmMessage);
    } else if t == STARTTLS {
      CalmError(st, slot, m, UnsupportedMessage);
    } else {
      CalmError(st, slot, m, UnexpectedMessage);
    }
  }

  lemma PreinitCalm(st: State, slot: nat, m: Decoded)
    requires Open(st, slot) && Indexed(st)
    ensures Calm(st, HandlePreinit(st, slot, m))
  {
    var s := st.sessions[slot];
    if m.clusterName == [] {
      CalmError(st, slot, m, MissingOption);
    } else if s.phase != WaitPreinit {
      CalmError(st, slot, m, UnexpectedMessage);
    } else {
      CalmAnswer(st, slot, s.(clusterName := m.clusterName, phase := WaitInit),
                 PreinitReply(m.seqNumberSet, m.seqNumber, 0, 0));
    }
  }

  lemma SetOptionCalm(st: State, slot: nat, m: Decoded, now: nat)
    requires Open(st, slot) && Indexed(st) && st.sessions[slot].phase == Active
    ensures Calm(st, HandleSetOption(st, slot, m, now))
  {
    var s := st.sessions[slot];
    if m.heartbeatSet && (m.heartbeat < HEARTBEAT_MIN_MS || m.heartbeat > HEARTBEAT_MAX_MS) {
      CalmError(st, slot, m, InvalidHeartbeat);
    } else {
      var s' := WithOptions(s, m, now);
      CalmAnswer(st, slot, s', SetOptionReply(m.seqNumberSet, m.seqNumber, m.heartbeatSet, s'.heartbeat,
                                              m.keepActive.Some?, if s'.keepActive then 1 else 0));
    }
  }

  // ---------------------------------------------------------------- acknowledgements

  /** The reply of `slot` releases the ACKs: it was the last outstanding NACK. */
  ghost predicate Releases(a: State, slot: nat)
    requires slot < |a.sessions|
  {
    var c := a.sessions[slot].cluster;
    && 0 <= c < |a.clusters| && a.clusters[c].state == SendingNacks
    && forall i :: InCluster(a, c, i) && i != slot ==> a.sessions[i].poll.ff != SendingNack
  }

  /** Session `i` through the acknowledgement of `slot`: only `slot` stops waiting, and exactly the
      sessions awaiting an ACK get one when the ACKs are released. */
  ghost predicate AckAt(a: State, b: State, slot: nat, i: nat)
    requires slot < |a.sessions| && i < |a.sessions| && i < |b.sessions| && a.out <= b.out
  {
    var (s, s') := (a.sessions[i], b.sessions[i]);
    && VoteFieldsOnly(s, s')
    && s'.poll.ff == (if i == slot then Waiting else s.poll.ff)
    && (if Releases(a, slot) && i != slot && InCluster(a, a.sessions[slot].cluster, i) && s.poll.ff == SendingAck
        then s'.poll.voteSeq == Succ32(s.poll.voteSeq) && s'.poll.lastAckNack == Ack
             && NewVotes(a, b, i) == [VoteInfo(Succ32(s.poll.voteSeq), s.ring, Ack)]
        else s'.poll.voteSeq == s.poll.voteSeq && s'.poll.lastAckNack == s.poll.lastAckNack
             && NewVotes(a, b, i) == [])
  }

  ghost predicate Acks(a: State, b: State, slot: nat) {
    && slot < |a.sessions| && 0 <= a.sessions[slot].cluster < |a.clusters|
    && |b.sessions| == |a.sessions| && |b.clusters| == |a.clusters|
    && a.out <= b.out && b.decisions == a.decisions
    && (forall i :: 0 <= i < |a.sessions| ==> AckAt(a, b, slot, i))
    && (forall d :: 0 <= d < |a.clusters| ==> b.clusters[d] == a.clusters[d].(state := b.clusters[d].state))
    && (forall d :: 0 <= d < |a.clusters| && d != a.sessions[slot].cluster ==> b.clusters[d] == a.clusters[d])
    && (Releases(a, slot) ==> b.clusters[a.sessions[slot].cluster].state != SendingNacks)
    && (!Releases(a, slot) ==>
          var (f, f') := (a.clusters[a.sessions[slot].cluster].state, b.clusters[a.sessions[slot].cluster].state);
          f' == f || (f == SendingAcks && f' == WaitingForChange))
  }

  lemma AcknowledgeEffect(st: State, slot: nat)
    requires slot < |st.sessions| && ValidTrigger(st, StoredTrigger(st, slot, false))
    ensures Acks(st, Acknowledge(st, slot), slot)
  {
    var c := st.sessions[slot].cluster;
    var s1 := SetSession(st, slot, st.sessions[slot].(poll := st.sessions[slot].poll.(ff := Waiting)));
    assert AnySending(s1, c, SendingNack) <==>
           exists i :: InCluster(st, c, i) && i != slot && st.sessions[i].poll.ff == SendingNack by {
      assert forall i :: InCluster(s1, c, i) <==> InCluster(st, c, i);
      if i :| InCluster(st, c, i) && i != slot && st.sessions[i].poll.ff == SendingNack {
        assert InCluster(s1, c, i);
      }
    }
    var b := Acknowledge(st, slot);
    if Releases(st, slot) {
      AckReleases(st, slot, s1);
    } else {
      forall i | 0 <= i < |st.sessions|
        ensures st.out <= b.out && NewVotes(st, b, i) == []
      {
        NewVotesOf(st, b, [], i);
      }
    }
  }

  lemma AckReleases(st: State, slot: nat, s1: State)
    requires slot < |st.sessions| && ValidTrigger(st, StoredTrigger(st, slot, false)) && Releases(st, slot)
    requires s1 == SetSession(st, slot, st.sessions[slot].(poll := st.sessions[slot].poll.(ff := Waiting)))
    ensures Acks(st, ReleaseAcks(s1, StoredTrigger(s1, slot, false)), slot)
  {
    var tv := StoredTrigger(s1, slot, false);
    var b := ReleaseAcks(s1, tv);
    PassEffect(s1, tv);
    forall i | 0 <= i < |st.sessions|
      ensures st.out <= b.out && AckAt(st, b, slot, i)
    {
      DueIsSending(s1, slot, i);
      NewVotesOf(st, b, VoteEvents(s1, tv, true, |st.sessions|), i);
      VotesToOfPass(s1, tv, true, |st.sessions|, i);
    }
  }

  // ---------------------------------------------------------------- every step sends the right ring

  /** A step that sends one frame, and that no vote-info. */
  lemma SilentRings(st: State, b: State, slot: nat, frame: Reply, i: nat)
    requires b.out == st.out + [Send(slot, frame)] && !frame.VoteInfo? && i < |b.sessions|
    ensures RightRing(st, b, i)
  {
    AnswerVotes(st, st, b, Send(slot, frame), i);
    NewVotesOf(st, st, [], i);
  }

  lemma StoredRings(st: State, tv: Trigger, s': Session, frame: Reply, i: nat)
    requires ValidTrigger(st, tv) && !tv.leaving && !frame.VoteInfo? && i < |st.sessions|
    requires |FfsplitDo(st, tv).0.sessions| == |st.sessions| && s'.ring == tv.ring
    ensures st.out <= Answer(FfsplitDo(st, tv).0, tv.slot, s', frame).out
    ensures RightRing(st, Answer(FfsplitDo(st, tv).0, tv.slot, s', frame), i)
  {
    var st1 := FfsplitDo(st, tv).0;
    var b := Answer(st1, tv.slot, s', frame);
    FfsplitVoteStep(st, tv);
    forall k | 0 <= k < |st.sessions|
      ensures st.out <= b.out && NewVotes(st, b, k) == NewVotes(st, st1, k)
      ensures st1.sessions[k].ring == st.sessions[k].ring
    {
      AnswerVotes(st, st1, b, Send(tv.slot, frame), k);
      assert VoteFieldsOnly(st.sessions[k], st1.sessions[k]);
    }
    RunRings(st, tv, b, i);
  }

  lemma MembershipRings(st: State, slot: nat, m: Decoded, i: nat)
    requires Open(st, slot) && Indexed(st) && st.sessions[slot].phase == Active && i < |st.sessions|
    requires m.listType == Some(Membership) && m.seqNumberSet && m.ringSet && Has(m.nodes, st.sessions[slot].nodeId)
    ensures RightRing(st, HandleNodeList(st, slot, m), i)
  {
    var s0 := st.sessions[slot];
    MembershipVoteStep(st, slot, m);
    var (st1, result) := MembershipReceived(st, slot, m);
    var s := Answered(st1.sessions[slot].(membership := m.nodes, ring := m.ring, heuristics := m.heuristics), result);
    var frame := NodeListReply(m.seqNumber, Membership, m.ring, result);
    assert HandleNodeList(st, slot, m) == Answer(st1, slot, s, frame);
    if s0.config == [] {
      SilentRings(st, Answer(st1, slot, s, frame), slot, frame, i);
    } else {
      StoredRings(st, Trigger(slot, false, m.ring, s0.config, m.nodes, m.heuristics), s, frame, i);
    }
  }

  lemma ConfigRings(st: State, slot: nat, m: Decoded, i: nat)
    requires Open(st, slot) && Indexed(st) && st.sessions[slot].phase == Active && i < |st.sessions|
    requires (m.listType == Some(InitialConfig) || m.listType == Some(ChangedConfig)) && m.seqNumberSet
    requires Has(m.nodes, st.sessions[slot].nodeId)
    ensures RightRing(st, HandleNodeList(st, slot, m), i)
  {
    var s0 := st.sessions[slot];
    ConfigVoteStep(st, slot, m);
    var (st1, result) := ConfigReceived(st, slot, m);
    assert VoteFieldsOnly(s0, st1.sessions[slot]);
    var s := Answered(st1.sessions[slot].(config := m.nodes), result);
    var frame := NodeListReply(m.seqNumber, m.listType.value, s0.ring, result);
    assert HandleNodeList(st, slot, m) == Answer(st1, slot, s, frame);
    if m.listType == Some(InitialConfig) || s0.membership == [] {
      SilentRings(st, Answer(st1, slot, s, frame), slot, frame, i);
    } else {
      StoredRings(st, Trigger(slot, false, s0.ring, m.nodes, s0.membership, s0.heuristics), s, frame, i);
    }
  }

  lemma ListRings(st: State, slot: nat, m: Decoded, i: nat)
    requires Open(st, slot) && Indexed(st) && st.sessions[slot].phase == Active && i < |st.sessions|
    ensures RightRing(st, HandleNodeList(st, slot, m), i)
  {
    if m.listType.None? || !m.seqNumberSet || (m.listType == Some(Membership) && !m.ringSet)
       || (m.listType == Some(Quorum) && m.quorate.None?) {
      SilentRings(st, HandleNodeList(st, slot, m), slot,
                  ServerErrorReply(m.seqNumberSet, m.seqNumber, MissingOption), i);
    } else if m.listType == Some(Quorum) {
      SilentRings(st, HandleNodeList(st, slot, m), slot,
                  NodeListReply(m.seqNumber, Quorum, st.sessions[slot].ring, NoChange), i);
    } else if !Has(m.nodes, st.sessions[slot].nodeId) {
      var code := if m.listType == Some(Membership) then InvalidMembershipList else InvalidConfigList;
      SilentRings(st, HandleNodeList(st, slot, m), slot, ServerErrorReply(m.seqNumberSet, m.seqNumber, code), i);
    } else if m.listType == Some(Membership) {
      MembershipRings(st, slot, m, i);
    } else {
      assert m.listType.value.InitialConfig? || m.listType.value.ChangedConfig?;
      ConfigRings(st, slot, m, i);
    }
  }

  lemma HeuristicsRings(st: State, slot: nat, m: Decoded, i: nat)
    requires Open(st, slot) && Indexed(st) && st.sessions[slot].phase == Active && i < |st.sessions|
    ensures RightRing(st, HandleHeuristicsChange(st, slot, m), i)
  {
    var s0 := st.sessions[slot];
    if !m.seqNumberSet || m.heuristics == HeurUndefined {
      SilentRings(st, HandleHeuristicsChange(st, slot, m), slot,
                  ServerErrorReply(m.seqNumberSet, m.seqNumber, MissingOption), i);
    } else {
      HeuristicsVoteStep(st, slot, m.heuristics);
      var (st1, result) := HeuristicsReceived(st, slot, m.heuristics);
      assert VoteFieldsOnly(s0, st1.sessions[slot]);
      var s := Answered(st1.sessions[slot].(heuristics := m.heuristics), result);
      var frame := HeuristicsChangeReply(m.seqNumberSet, m.seqNumber, result);
      assert HandleHeuristicsChange(st, slot, m) == Answer(st1, slot, s, frame);
      if s0.config == [] || s0.membership == [] {
        SilentRings(st, Answer(st1, slot, s, frame), slot, frame, i);
      } else {
        StoredRings(st, Trigger(slot, false, s0.ring, s0.config, s0.membership, m.heuristics), s, frame, i);
      }
    }
  }

  lemma ReplyRings(st: State, slot: nat, m: Decoded, i: nat)
    requires Open(st, slot) && Indexed(st) && st.sessions[slot].phase == Active && i < |st.sessions|
    ensures RightRing(st, HandleVoteInfoReply(st, slot, m), i)
  {
    if !m.seqNumberSet {
      SilentRings(st, HandleVoteInfoReply(st, slot, m), slot,
                  ServerErrorReply(m.seqNumberSet, m.seqNumber, MissingOption), i);
    } else if m.seqNumber != st.sessions[slot].poll.voteSeq {
      NewVotesOf(st, st, [], i);
    } else {
      AcknowledgeEffect(st, slot);
      assert AckAt(st, Acknowledge(st, slot), slot, i);
    }
  }

  /** Whatever a message sets off, every vote-info, NACK or ACK, carries the ring its recipient has
      stored by then. */
  lemma MsgRings(st: State, slot: nat, t: u16, m: Decoded, frame: seq<byte>, now: nat, maxRx: u32, i: nat)
    requires Open(st, slot) && Indexed(st) && i < |st.sessions|
    ensures RightRing(st, HandleMsg(st, slot, t, m, frame, now, maxRx), i)
  {
    var s := st.sessions[slot];
    if s.phase == Active && t == NODE_LIST {
      ListRings(st, slot, m, i);
    } else if s.phase == Active && t == HEURISTICS_CHANGE {
      HeuristicsRings(st, slot, m, i);
    } else if s.phase == Active && t == VOTE_INFO_REPLY {
      ReplyRings(st, slot, m, i);
    } else {
      OtherRings(st, slot, t, m, frame, now, maxRx, i);
    }
  }

  lemma OtherRings(st: State, slot: nat, t: u16, m: Decoded, frame: seq<byte>, now: nat, maxRx: u32, i: nat)
    requires Open(st, slot) && Indexed(st) && i < |st.sessions|
    requires st.sessions[slot].phase == Active ==> t != NODE_LIST && t != HEURISTICS_CHANGE && t != VOTE_INFO_REPLY
    ensures RightRing(st, HandleMsg(st, slot, t, m, frame, now, maxRx), i)
  {
    var b := HandleMsg(st, slot, t, m, frame, now, maxRx);
    assert |b.out| == |st.out| + 1 && b.out[..|st.out|] == st.out;
    var ev := b.out[|st.out|];
    assert b.out == st.out + [ev];
    SilentRings(st, b, slot, ev.frame, i);
  }

  /** And so does the end of a session. */
  lemma EndRings(st: State, slot: nat, evict: bool, i: nat)
    requires Open(st, slot) && Indexed(st) && i < |st.sessions|
    ensures st.out <= Ended(st, slot, evict).out && RightRing(st, Ended(st, slot, evict), i)
  {
    var b := Ended(st, slot, evict);
    if st.sessions[slot].phase == Active {
      var tv := StoredTrigger(st, slot, true);
      var st1 := FfsplitDo(st, tv).0;
      FfsplitVoteStep(st, tv);
      forall k | 0 <= k < |st.sessions|
        ensures st.out <= b.out && NewVotes(st, b, k) == NewVotes(st, st1, k)
      {
        if evict {
          AnswerVotes(st, st1, b, Close(slot), k);
        }
      }
      assert i != slot ==> VoteFieldsOnly(st.sessions[i], CloseSlot(st, slot).sessions[i]);
      RunRings(st, tv, b, i);
    } else {
      NewVotesOf(st, st, [], i);
      if evict {
        AnswerVotes(st, st, b, Close(slot), i);
      }
    }
  }
}
