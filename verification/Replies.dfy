/** The answer every message gets, exactly: the refusals, the verdict on an INIT, and what the other
    replies say. Told by message type, phase and contents, with the numbers of the protocol. */
module Replies {
  import opened Wire
  import opened Msg
  import opened ServerState
  import opened Protocol
  import opened Answers
  import opened Reports
  import opened Outcomes

  // ---------------------------------------------------------------- refusals

  /** A message of a session that is not active. */
  function EarlyRefusal(s: Session, t: u16, m: Decoded): (code: Option<ErrorCode>) {
    if t == 0 then
      if m.clusterName == [] then Some(MissingOption)
      else if s.phase == WaitPreinit then None else Some(UnexpectedMessage)
    else if s.phase == WaitPreinit then Some(PreinitRequired)
    else if t == 3 then None
    else Some(InitRequired)
  }

  /** A node list that is incomplete, or a configuration or membership without its sender. */
  function ListRefusal(s: Session, m: Decoded): (code: Option<ErrorCode>) {
    if !m.seqNumberSet || m.listType.None? then Some(MissingOption)
    else
      match m.listType.value
      case Membership => if !m.ringSet then Some(MissingOption)
                         else if s.nodeId !in Ids(m.nodes) then Some(InvalidMembershipList) else None
      case Quorum => if m.quorate.None? then Some(MissingOption) else None
      case _ => if s.nodeId !in Ids(m.nodes) then Some(InvalidConfigList) else None
  }

  /** Why a message is refused, if it is. An INIT is always answered by an INIT reply. */
  function Refused(s: Session, t: u16, m: Decoded): (code: Option<ErrorCode>) {
    if s.phase != Active || t == 0 then EarlyRefusal(s, t, m)
    else match t
      case 3 => None
      case 6 => if m.heartbeatSet && !(1000 <= m.heartbeat <= 120000) then Some(InvalidHeartbeat) else None
      case 8 => None
      case 10 => ListRefusal(s, m)
      case 15 => if m.seqNumberSet then None else Some(MissingOption)
      case 16 => if m.seqNumberSet && m.heuristics != HeurUndefined then None else Some(MissingOption)
      case 12 => Some(UnsupportedAlgorithmMessage)
      case 2 => Some(UnsupportedMessage)
      case _ => Some(UnexpectedMessage)
  }

  // ---------------------------------------------------------------- the verdict on an INIT

  /** How the sender of an INIT clashes with another active member of its cluster. */
  function ClashAt(st: State, slot: nat, m: Decoded, i: nat): (code: ErrorCode)
    requires slot < |st.sessions| && i < |st.sessions|
  {
    var o := st.sessions[i];
    if i == slot || o.phase != Active || o.clusterName != st.sessions[slot].clusterName then NoError
    else if m.tieBreaker.mode != o.tieBreaker.mode
            || (o.tieBreaker.mode == ByNodeId && m.tieBreaker.nodeId != o.tieBreaker.nodeId) then TieBreakerDiffers
    else if o.algorithm != 1 then AlgorithmDiffers
    else if o.nodeId == m.nodeId then DuplicateNodeId
    else NoError
  }

  /** The first options missing or out of range. */
  function OptionsVerdict(m: Decoded): (code: ErrorCode) {
    if !m.nodeIdSet || !m.ringSet || !m.heartbeatSet then MissingOption
    else if !(1000 <= m.heartbeat <= 120000) then InvalidHeartbeat
    else if !m.tieBreakerSet || !m.algorithmSet then MissingOption
    else if m.algorithm != 1 then UnsupportedAlgorithm
    else NoError
  }

  /** The code an INIT is answered with: the first objection to its options, else the clash with the
      member in the lowest slot, else whether there is a record left for its cluster. */
  ghost predicate Verdict(st: State, slot: nat, m: Decoded, code: ErrorCode)
    requires slot < |st.sessions|
  {
    if st.sessions[slot].phase == Active then code == UnexpectedMessage
    else if OptionsVerdict(m) != NoError then code == OptionsVerdict(m)
    else if exists i :: 0 <= i < |st.sessions| && ClashAt(st, slot, m, i) != NoError then
      exists i :: 0 <= i < |st.sessions| && code == ClashAt(st, slot, m, i) != NoError
                  && forall k :: 0 <= k < i ==> ClashAt(st, slot, m, k) == NoError
    else code == if HasRoom(st.clusters, st.sessions[slot].clusterName) then NoError else InternalError
  }

  lemma OptionsJudged(s: Session, m: Decoded)
    ensures var (s', code) := InitFields(s, m);
            && (s.phase == Active ==> code == UnexpectedMessage)
            && (s.phase != Active ==> code == OptionsVerdict(m))
            && (code == NoError ==> s' == s.(nodeId := m.nodeId, ring := m.ring, heartbeat := m.heartbeat,
                                             tieBreaker := m.tieBreaker, algorithm := 1))
  {
  }

  lemma {:induction false} FirstClash(st: State, slot: nat, m: Decoded, s': Session, i: nat)
    requires slot < |st.sessions| && i <= |st.sessions|
    requires s'.clusterName == st.sessions[slot].clusterName && s'.tieBreaker == m.tieBreaker
    requires s'.algorithm == 1 && s'.nodeId == m.nodeId
    requires forall k :: 0 <= k < i ==> ClashAt(st, slot, m, k) == NoError
    ensures FirstConflict(st, slot, s', i) == NoError
            ==> forall k :: 0 <= k < |st.sessions| ==> ClashAt(st, slot, m, k) == NoError
    ensures FirstConflict(st, slot, s', i) != NoError
            ==> exists j :: 0 <= j < |st.sessions| && FirstConflict(st, slot, s', i) == ClashAt(st, slot, m, j)
                            && forall k :: 0 <= k < j ==> ClashAt(st, slot, m, k) == NoError
    decreases |st.sessions| - i
  {
    if i < |st.sessions| {
      assert Conflict(st, slot, s', i) == ClashAt(st, slot, m, i);
      if ClashAt(st, slot, m, i) == NoError {
        FirstClash(st, slot, m, s', i + 1);
      }
    }
  }

  /** An INIT is judged by the verdict. */
  lemma InitJudged(st: State, slot: nat, m: Decoded, now: nat)
    requires Open(st, slot)
    ensures Verdict(st, slot, m, InitOutcome(st, slot, m, now).2)
  {
    OptionsJudged(st.sessions[slot], m);
    var (s', code) := InitFields(st.sessions[slot], m);
    if code == NoError {
      FirstClash(st, slot, m, s', 0);
      RoomIff(st.clusters, s'.clusterName);
    }
  }

  // ---------------------------------------------------------------- every answer

  /** What the acceptance of options is answered with: each option that was given, as it now is. */
  function OptionsReply(s: Session, m: Decoded): (r: Reply) {
    SetOptionReply(m.seqNumberSet, m.seqNumber, m.heartbeatSet, if m.heartbeatSet then m.heartbeat else s.heartbeat,
                   m.keepActive.Some?,
                   if m.keepActive.Some? then (if m.keepActive.value != 0 then 1 else 0)
                   else if s.keepActive then 1 else 0)
  }

  /** `r` is the answer due to a message that is not refused. */
  ghost predicate Served(st: State, slot: nat, t: u16, m: Decoded, frame: seq<byte>, maxRx: u32, r: Option<Reply>)
    requires Open(st, slot) && Indexed(st) && Refused(st.sessions[slot], t, m).None?
  {
    var s := st.sessions[slot];
    if t == 0 then r == Some(PreinitReply(m.seqNumberSet, m.seqNumber, 0, 0))
    else if t == 3 then
      && r.Some? && r.value.InitReply? && Verdict(st, slot, m, r.value.code)
      && r.value == InitReply(m.seqNumberSet, m.seqNumber, r.value.code, m.supportedMessages, m.supportedOptions,
                              maxRx, maxRx)
    else if t == 6 then r == Some(OptionsReply(s, m))
    else if t == 8 then r == Some(EchoReply(frame))
    else if t == 15 then r == None
    else if t == 10 && m.listType == Some(Quorum) then r == Some(NodeListReply(m.seqNumber, Quorum, s.ring, NoChange))
    else
      ReportOffers(st, slot, t, m);
      r == Some(ReportAnswer(st, slot, Revised(s, t, m), t, m))
  }

  /** `r` is the answer due to a message. */
  ghost predicate Due(st: State, slot: nat, t: u16, m: Decoded, frame: seq<byte>, maxRx: u32, r: Option<Reply>)
    requires Open(st, slot) && Indexed(st)
  {
    match Refused(st.sessions[slot], t, m)
    case Some(code) => r == Some(ServerErrorReply(m.seqNumberSet, m.seqNumber, code))
    case None => Served(st, slot, t, m, frame, maxRx, r)
  }

  /** A message that is answered and otherwise ignored: every refused one, an echo request and a quorum
      report. */
  predicate Idle(s: Session, t: u16, m: Decoded) {
    Refused(s, t, m).Some? || t == 8 || (t == 10 && m.listType == Some(Quorum))
  }

  lemma RefusedAnswer(st: State, slot: nat, t: u16, m: Decoded, frame: seq<byte>, now: nat, maxRx: u32)
    requires Open(st, slot) && Indexed(st) && Refused(st.sessions[slot], t, m).Some?
    ensures HandleMsg(st, slot, t, m, frame, now, maxRx)
            == SendErr(st, slot, m, Refused(st.sessions[slot], t, m).value)
  {
    if st.sessions[slot].phase == Active && t == 10 {
      RefusedList(st, slot, m);
    }
  }

  lemma RefusedList(st: State, slot: nat, m: Decoded)
    requires Open(st, slot) && Indexed(st) && st.sessions[slot].phase == Active
    requires ListRefusal(st.sessions[slot], m).Some?
    ensures HandleNodeList(st, slot, m) == SendErr(st, slot, m, ListRefusal(st.sessions[slot], m).value)
  {
  }

  lemma ReportAnswered(st: State, slot: nat, t: u16, m: Decoded, frame: seq<byte>, now: nat, maxRx: u32)
    requires Open(st, slot) && Indexed(st) && st.sessions[slot].phase == Active && Reporting(st.sessions[slot], t, m)
    ensures var s' := Revised(st.sessions[slot], t, m);
            && Offers(st, slot, s')
            && OneAnswer(st, HandleMsg(st, slot, t, m, frame, now, maxRx), slot, ReportAnswer(st, slot, s', t, m))
  {
    var s' := Revised(st.sessions[slot], t, m);
    ReportRuns(st, slot, t, m, frame, now, maxRx);
    var st1 := Weighed(st, slot, s', t, m).0;
    if Decisive(s', t, m) {
      StableAsStored(st, slot, s');
      FfsplitOnlyVotes(st, View(slot, s'));
    } else {
      OnlyVotesOf(st, st, []);
    }
    AnswerIsOne(st, st1, slot, s'.(poll := st1.sessions[slot].poll), ReportAnswer(st, slot, s', t, m));
  }

  /** Handshake, options, echo and quorum reports. */
  lemma PlainAnswered(st: State, slot: nat, t: u16, m: Decoded, frame: seq<byte>, now: nat, maxRx: u32)
    returns (r: Reply)
    requires Open(st, slot) && Indexed(st) && Refused(st.sessions[slot], t, m).None?
    requires t == 0 || t == 3 || t == 6 || t == 8 || (t == 10 && m.listType == Some(Quorum))
    ensures Served(st, slot, t, m, frame, maxRx, Some(r)) && !r.VoteInfo?
    ensures var b := HandleMsg(st, slot, t, m, frame, now, maxRx);
            && b.out == st.out + [Send(slot, r)]
            && (Idle(st.sessions[slot], t, m) ==> b == Emit(st, slot, r))
  {
    var s := st.sessions[slot];
    if t == 0 {
      r := PreinitReply(m.seqNumberSet, m.seqNumber, 0, 0);
    } else if t == 3 {
      InitJudged(st, slot, m, now);
      var code := InitOutcome(st, slot, m, now).2;
      r := InitReply(m.seqNumberSet, m.seqNumber, code, m.supportedMessages, m.supportedOptions, maxRx, maxRx);
    } else if t == 6 {
      r := OptionsReply(s, m);
    } else if t == 8 {
      r := EchoReply(frame);
    } else {
      r := NodeListReply(m.seqNumber, Quorum, s.ring, NoChange);
      QuorumAnswered(st, slot, m);
    }
  }

  lemma QuorumAnswered(st: State, slot: nat, m: Decoded)
    requires Open(st, slot) && Indexed(st) && st.sessions[slot].phase == Active
    requires m.listType == Some(Quorum) && ListRefusal(st.sessions[slot], m).None?
    ensures HandleNodeList(st, slot, m)
            == Emit(st, slot, NodeListReply(m.seqNumber, Quorum, st.sessions[slot].ring, NoChange))
  {
    assert Answered(st.sessions[slot], NoChange) == st.sessions[slot];
    assert st.sessions[slot := st.sessions[slot]] == st.sessions;
  }

  /** What is due repeats the sequence number; nothing is due only to a numbered vote-info reply. */
  lemma DueRepeats(st: State, slot: nat, t: u16, m: Decoded, frame: seq<byte>, maxRx: u32, r: Option<Reply>)
    requires Open(st, slot) && Indexed(st) && Due(st, slot, t, m, frame, maxRx, r)
    ensures r.None? <==> t == 15 && st.sessions[slot].phase == Active && m.seqNumberSet
    ensures r.Some? ==> Repeats(r.value, m, frame)
  {
  }

  /** Every message is answered once, to its sender and with its own sequence number, by exactly what is
      due; only a numbered vote-info reply of an active session gets no answer. All else that is sent
      are vote-infos. A refused message, an echo request and a quorum report have no other effect, a
      vote-info reply with an old number none at all. */
  lemma AnsweredExactly(st: State, slot: nat, t: u16, m: Decoded, frame: seq<byte>, now: nat, maxRx: u32)
    returns (r: Option<Reply>)
    requires Open(st, slot) && Indexed(st)
    ensures Due(st, slot, t, m, frame, maxRx, r)
    ensures r.None? <==> t == 15 && st.sessions[slot].phase == Active && m.seqNumberSet
    ensures r.Some? ==> Repeats(r.value, m, frame)
    ensures var b := HandleMsg(st, slot, t, m, frame, now, maxRx);
            && (if r.None? then OnlyVotes(st, b) else OneAnswer(st, b, slot, r.value))
            && (Idle(st.sessions[slot], t, m) ==> r.Some? && b == Emit(st, slot, r.value))
            && (r.None? && m.seqNumber != st.sessions[slot].poll.voteSeq ==> b == st)
  {
    var s := st.sessions[slot];
    var b := HandleMsg(st, slot, t, m, frame, now, maxRx);
    if Refused(s, t, m).Some? {
      var code := Refused(s, t, m).value;
      r := Some(ServerErrorReply(m.seqNumberSet, m.seqNumber, code));
      RefusedAnswer(st, slot, t, m, frame, now, maxRx);
      ErrorIsOne(st, slot, m, code);
    } else if t == 0 || t == 3 || t == 6 || t == 8 || (t == 10 && m.listType == Some(Quorum)) {
      var a := PlainAnswered(st, slot, t, m, frame, now, maxRx);
      JustAnswer(st, b, slot, a);
      r := Some(a);
    } else if t == 15 {
      r := None;
      ReplyAnswered(st, slot, m);
    } else {
      ReportAnswered(st, slot, t, m, frame, now, maxRx);
      r := Some(ReportAnswer(st, slot, Revised(s, t, m), t, m));
    }
    DueRepeats(st, slot, t, m, frame, maxRx, r);
  }

  lemma ReplyAnswered(st: State, slot: nat, m: Decoded)
    requires Open(st, slot) && Indexed(st) && st.sessions[slot].phase == Active && m.seqNumberSet
    ensures OnlyVotes(st, HandleVoteInfoReply(st, slot, m))
  {
    if m.seqNumber == st.sessions[slot].poll.voteSeq {
      AcknowledgeOnlyVotes(st, slot);
    } else {
      OnlyVotesOf(st, st, []);
    }
  }
}
