/** Dead-peer detection: a session is closed exactly when it has not been heard from for its
    allowance. */
module Timers {
  import opened Wire
  import opened Msg
  import T = Tlv
  import opened ServerState
  import opened Protocol
  import opened Events
  import opened Invariants
  import opened Preservation
  import opened Messages
  import opened Framing

  /** How long a session may stay silent: one and a half heartbeats once active, a fixed time
      before. */
  function Allowance(s: Session): (d: nat) {
    if s.phase == Active then 3 * s.heartbeat / 2 else PREACTIVE_TIMEOUT_MS
  }

  /** The deadline of an open session that was last heard from at `t`. */
  predicate HeardAt(s: Session, t: nat) {
    s.phase != Free ==> s.deadline == t + Allowance(s)
  }

  /** Phase, heartbeat and deadline unchanged. */
  predicate SameTimer(s: Session, s': Session) {
    s'.phase == s.phase && s'.heartbeat == s.heartbeat && s'.deadline == s.deadline
  }

  /** What a message does to the timers: the sender's deadline keeps to its allowance, even when
      the message changes the phase or the heartbeat, and everybody else's timer stands. */
  ghost predicate KeepsTime(a: State, b: State, slot: nat, now: nat) {
    && slot < |a.sessions| == |b.sessions|
    && (HeardAt(a.sessions[slot], now) ==> HeardAt(b.sessions[slot], now))
    && (forall i :: 0 <= i < |a.sessions| && i != slot ==> SameTimer(a.sessions[i], b.sessions[i]))
  }

  lemma VotesKeepTime(a: State, b: State, slot: nat, s: Session, frame: Reply, now: nat)
    requires VoteStep(a, b) && slot < |a.sessions|
    requires HeardAt(a.sessions[slot], now) ==> HeardAt(s, now)
    ensures KeepsTime(a, Answer(b, slot, s, frame), slot, now)
  {
    forall i | 0 <= i < |a.sessions|
      ensures VoteFieldsOnly(a.sessions[i], b.sessions[i])
    {
    }
  }

  lemma InitKeepsTime(st: State, slot: nat, m: Decoded, now: nat, maxRx: u32)
    requires Open(st, slot) && Indexed(st) && SessionOk(st.sessions[slot])
    ensures KeepsTime(st, HandleInit(st, slot, m, now, maxRx), slot, now)
  {
    var (cs, s, code) := InitOutcome(st, slot, m, now);
    if HeardAt(st.sessions[slot], now) {
      InitTimer(st, slot, m, now);
    }
    VotesKeepTime(st, st.(clusters := cs), slot, s,
                  InitReply(m.seqNumberSet, m.seqNumber, code, m.supportedMessages, m.supportedOptions, maxRx, maxRx),
                  now);
  }

  lemma InitTimer(st: State, slot: nat, m: Decoded, now: nat)
    requires Open(st, slot) && SessionOk(st.sessions[slot]) && HeardAt(st.sessions[slot], now)
    ensures HeardAt(InitOutcome(st, slot, m, now).1, now)
    ensures |InitOutcome(st, slot, m, now).0| == |st.clusters|
  {
    InitFieldsOk(st.sessions[slot], m, false);
  }

  lemma StoreKeepsTime(st: State, st1: State, slot: nat, m: Decoded, s: Session, result: Vote, now: nat)
    requires Open(st, slot) && Indexed(st) && m.listType.Some? && VoteStep(st, st1)
    requires Edit(st, st.sessions[slot], s) && SameTimer(st.sessions[slot], s)
    ensures KeepsTime(st, StoreAndReply(st, st1, slot, m, s, result), slot, now)
  {
    VotesKeepTime(st, st1, slot, Answered(s, result),
                  NodeListReply(m.seqNumber, m.listType.value, s.ring, result), now);
  }

  lemma MembershipKeepsTime(st: State, slot: nat, m: Decoded, now: nat)
    requires Open(st, slot) && Indexed(st) && st.sessions[slot].phase == Active
    requires m.listType == Some(Membership) && m.seqNumberSet && m.ringSet && Has(m.nodes, st.sessions[slot].nodeId)
    ensures KeepsTime(st, HandleNodeList(st, slot, m), slot, now)
  {
    MembershipVoteStep(st, slot, m);
    var (st1, result) := MembershipReceived(st, slot, m);
    var s := st1.sessions[slot].(membership := m.nodes, ring := m.ring, heuristics := m.heuristics);
    StoreKeepsTime(st, st1, slot, m, s, result, now);
    assert HandleNodeList(st, slot, m) == StoreAndReply(st, st1, slot, m, s, result);
  }

  lemma ConfigKeepsTime(st: State, slot: nat, m: Decoded, now: nat)
    requires Open(st, slot) && Indexed(st) && st.sessions[slot].phase == Active
    requires (m.listType == Some(InitialConfig) || m.listType == Some(ChangedConfig)) && m.seqNumberSet
    requires Has(m.nodes, st.sessions[slot].nodeId)
    ensures KeepsTime(st, HandleNodeList(st, slot, m), slot, now)
  {
    ConfigVoteStep(st, slot, m);
    var (st1, result) := ConfigReceived(st, slot, m);
    var s := st1.sessions[slot].(config := m.nodes);
    StoreKeepsTime(st, st1, slot, m, s, result, now);
    assert HandleNodeList(st, slot, m) == StoreAndReply(st, st1, slot, m, s, result);
  }

  /** A list that is refused or only noted. */
  lemma NotedKeepsTime(st: State, slot: nat, m: Decoded, now: nat)
    requires Open(st, slot) && Indexed(st) && st.sessions[slot].phase == Active
    requires m.listType.None? || !m.seqNumberSet || m.listType == Some(Quorum)
             || (m.listType == Some(Membership) && !m.ringSet) || !Has(m.nodes, st.sessions[slot].nodeId)
    ensures KeepsTime(st, HandleNodeList(st, slot, m), slot, now)
  {
    if m.listType == Some(Quorum) {
      StoreKeepsTime(st, st, slot, m, st.sessions[slot], NoChange, now);
    }
  }

  lemma NodeListKeepsTime(st: State, slot: nat, m: Decoded, now: nat)
    requires Open(st, slot) && Indexed(st) && st.sessions[slot].phase == Active
    ensures KeepsTime(st, HandleNodeList(st, slot, m), slot, now)
  {
    if m.listType.None? || !m.seqNumberSet || m.listType == Some(Quorum)
       || (m.listType == Some(Membership) && !m.ringSet) || !Has(m.nodes, st.sessions[slot].nodeId) {
      NotedKeepsTime(st, slot, m, now);
    } else if m.listType == Some(Membership) {
      MembershipKeepsTime(st, slot, m, now);
    } else {
      assert m.listType.value.InitialConfig? || m.listType.value.ChangedConfig?;
      ConfigKeepsTime(st, slot, m, now);
    }
  }

  lemma HeuristicsKeepTime(st: State, slot: nat, m: Decoded, now: nat)
    requires Open(st, slot) && Indexed(st) && st.sessions[slot].phase == Active
    ensures KeepsTime(st, HandleHeuristicsChange(st, slot, m), slot, now)
  {
    HeuristicsVoteStep(st, slot, m.heuristics);
    var (st1, result) := HeuristicsReceived(st, slot, m.heuristics);
    VotesKeepTime(st, st1, slot, Answered(st1.sessions[slot].(heuristics := m.heuristics), result),
                  HeuristicsChangeReply(m.seqNumberSet, m.seqNumber, result), now);
  }

  lemma ReplyKeepsTime(st: State, slot: nat, m: Decoded, now: nat)
    requires Open(st, slot) && Indexed(st) && st.sessions[slot].phase == Active
    ensures KeepsTime(st, HandleVoteInfoReply(st, slot, m), slot, now)
  {
    AcknowledgeVoteStep(st, slot);
  }

  lemma MsgKeepsTime(st: State, slot: nat, t: u16, m: Decoded, frame: seq<byte>, now: nat, maxRx: u32)
    requires Open(st, slot) && Indexed(st) && SessionOk(st.sessions[slot])
    ensures KeepsTime(st, HandleMsg(st, slot, t, m, frame, now, maxRx), slot, now)
  {
    if t == INIT && st.sessions[slot].phase != WaitPreinit {
      InitKeepsTime(st, slot, m, now, maxRx);
    } else if t == NODE_LIST && st.sessions[slot].phase == Active {
      NodeListKeepsTime(st, slot, m, now);
    } else if t == VOTE_INFO_REPLY && st.sessions[slot].phase == Active {
      ReplyKeepsTime(st, slot, m, now);
    } else if t == HEURISTICS_CHANGE && st.sessions[slot].phase == Active {
      HeuristicsKeepTime(st, slot, m, now);
    }
  }

  // ---------------------------------------------------------------- streams

  lemma {:induction false} HandledKeepsTime(st: State, slot: nat, fs: seq<seq<byte>>, now: nat, maxRx: u32)
    requires Open(st, slot) && Indexed(st) && AllWhole(Decodes, fs, maxRx) && Inv(st, false)
    ensures Inv(Handled(st, slot, fs, now, maxRx), false)
    ensures KeepsTime(st, Handled(st, slot, fs, now, maxRx), slot, now)
    decreases |fs|
  {
    if fs != [] {
      assert Whole(Decodes, fs[0], maxRx);
      var m := Message(fs[0]).value;
      var st1 := HandleMsg(st, slot, T.Get16(fs[0]), m, fs[0], now, maxRx);
      MsgKeepsTime(st, slot, T.Get16(fs[0]), m, fs[0], now, maxRx);
      HandleMsgInv(st, slot, T.Get16(fs[0]), m, fs[0], now, maxRx, false);
      HandledKeepsTime(st1, slot, fs[1..], now, maxRx);
    }
  }

  /** Received bytes leave the sender heard from just now and the other timers alone. */
  lemma OutcomeKeepsTime(st: State, slot: nat, c: Cut, now: nat, maxRx: u32)
    requires Open(st, slot) && Indexed(st) && AllWhole(Decodes, c.frames, maxRx) && Inv(st, false)
    ensures var st1 := Outcome(Renewed(st, slot, now), slot, c, now, maxRx);
            && HeardAt(st1.sessions[slot], now) && Inv(st1, false)
            && forall i :: 0 <= i < |st.sessions| && i != slot ==> SameTimer(st.sessions[i], st1.sessions[i])
  {
    var st0 := Renewed(st, slot, now);
    assert SessionOk(st.sessions[slot]);
    EditInv(st, slot, st0.sessions[slot], false);
    HandledKeepsTime(st0, slot, c.frames, now, maxRx);
    InvSame(Handled(st0, slot, c.frames, now, maxRx), Outcome(st0, slot, c, now, maxRx), false);
  }
}
