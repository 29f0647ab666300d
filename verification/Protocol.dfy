/** The message handlers, as functions on the protocol state: handshake, options, node lists, votes
    and the dispatch by type and phase. `Events` builds the entry points on them and `Server`
    implements both with updates in place. */
module Protocol {
  import opened Wire
  import opened Msg
  import opened ServerState
  import opened Votes

  // ---------------------------------------------------------------- frames of the state

  /** Active sessions point at an existing cluster record. */
  ghost predicate Indexed(st: State) {
    forall i :: 0 <= i < |st.sessions| && st.sessions[i].phase == Active
                ==> 0 <= st.sessions[i].cluster < |st.clusters|
  }

  /** A slot holds an open connection. */
  predicate Open(st: State, slot: int) {
    0 <= slot < |st.sessions| && st.sessions[slot].phase != Free
  }

  /** `s'` is `s` up to the voting fields. */
  predicate VoteFieldsOnly(s: Session, s': Session) {
    s' == s.(poll := s'.poll)
  }

  /** `b` is `a` up to voting fields, cluster records, the decision count and more output. */
  ghost predicate VoteStep(a: State, b: State) {
    && |b.sessions| == |a.sessions| && |b.clusters| == |a.clusters|
    && (forall i :: 0 <= i < |a.sessions| ==> VoteFieldsOnly(a.sessions[i], b.sessions[i]))
    && a.out <= b.out && Closes(b.out) == Closes(a.out)
  }

  lemma FfsplitVoteStep(st: State, tv: Trigger)
    requires ValidTrigger(st, tv)
    ensures VoteStep(st, FfsplitDo(st, tv).0)
  {
    if Stability.Stable(st, tv) {
      var w := Selection.Winner(st, tv);
      DecisionEffect(st, tv, w);
      DecisionVoteStep(st, tv, w, FfsplitDo(st, tv).0);
    }
  }

  lemma DecisionVoteStep(st: State, tv: Trigger, w: Option<NodeList>, st': State)
    requires ValidTrigger(st, tv) && DecisionShape(st, tv, w, st')
    ensures VoteStep(st, st')
  {
    DecisionClosesNothing(st, tv, w, st');
    forall i | 0 <= i < |st.sessions|
      ensures VoteFieldsOnly(st.sessions[i], st'.sessions[i])
    {
      assert st'.sessions[i] == Decided(st, tv, w, i);
    }
  }

  lemma DecisionClosesNothing(st: State, tv: Trigger, w: Option<NodeList>, st': State)
    requires ValidTrigger(st, tv) && DecisionShape(st, tv, w, st')
    ensures st.out <= st'.out && Closes(st'.out) == Closes(st.out)
  {
    var m := Mark(st, tv, w);
    MarkedIsDue(st, tv, w, m);
    VoteEventsCloseNothing(st.out, m, tv, !AnyLoser(st, tv, w), |st.sessions|);
  }

  lemma AcknowledgeVoteStep(st: State, slot: nat)
    requires slot < |st.sessions| && ValidTrigger(st, StoredTrigger(st, slot, false))
    ensures VoteStep(st, Acknowledge(st, slot))
  {
    var s1 := SetSession(st, slot, st.sessions[slot].(poll := st.sessions[slot].poll.(ff := Waiting)));
    assert VoteStep(st, s1);
    var tv := StoredTrigger(s1, slot, false);
    assert VoteStep(s1, ReleaseAcks(s1, tv)) by {
      PassEffect(s1, tv);
      VoteEventsCloseNothing(s1.out, s1, tv, true, |st.sessions|);
    }
    VoteStepTrans(st, s1, ReleaseAcks(s1, tv));
  }

  lemma VoteStepTrans(a: State, b: State, c: State)
    requires VoteStep(a, b) && VoteStep(b, c)
    ensures VoteStep(a, c)
  {
    forall i | 0 <= i < |a.sessions|
      ensures VoteFieldsOnly(a.sessions[i], c.sessions[i])
    {
      assert VoteFieldsOnly(a.sessions[i], b.sessions[i]) && VoteFieldsOnly(b.sessions[i], c.sessions[i]);
    }
  }

  /** A message handler neither frees nor opens a slot, and closes nothing. */
  ghost predicate HandlerFrame(a: State, b: State) {
    && |b.sessions| == |a.sessions| && |b.clusters| == |a.clusters|
    && (forall i :: 0 <= i < |a.sessions| ==> (b.sessions[i].phase == Free <==> a.sessions[i].phase == Free))
    && a.out <= b.out && Closes(b.out) == Closes(a.out)
    && Indexed(b)
  }

  /** Store session `s` in `slot` and answer its peer. */
  function Answer(st: State, slot: nat, s: Session, frame: Reply): (r: State)
    requires slot < |st.sessions|
  {
    Emit(SetSession(st, slot, s), slot, frame)
  }

  /** The session a handler may store in place of `s`. */
  predicate Edit(st: State, s: Session, s': Session) {
    (s'.phase == Free <==> s.phase == Free)
    && (s'.phase == Active ==> 0 <= s'.cluster < |st.clusters|)
  }

  lemma AnswerFrame(a: State, b: State, slot: nat, s: Session, frame: Reply)
    requires VoteStep(a, b) && Indexed(a) && slot < |a.sessions| && Edit(a, a.sessions[slot], s)
    ensures HandlerFrame(a, Answer(b, slot, s, frame))
  {
    forall i | 0 <= i < |a.sessions|
      ensures VoteFieldsOnly(a.sessions[i], b.sessions[i])
    {
    }
  }

  // ---------------------------------------------------------------- handshake

  function SendErr(st: State, slot: nat, m: Decoded, code: ErrorCode): (r: State) {
    Emit(st, slot, ServerErrorReply(m.seqNumberSet, m.seqNumber, code))
  }

  ghost function HandlePreinit(st: State, slot: nat, m: Decoded): (r: State)
    requires Open(st, slot) && Indexed(st)
    ensures HandlerFrame(st, r)
  {
    var s := st.sessions[slot];
    if m.clusterName == [] then SendErr(st, slot, m, MissingOption)
    else if s.phase != WaitPreinit then SendErr(st, slot, m, UnexpectedMessage)
    else
      var s' := s.(clusterName := m.clusterName, phase := WaitInit);
      var reply := PreinitReply(m.seqNumberSet, m.seqNumber, 0, 0);
      AnswerFrame(st, st, slot, s', reply);
      Answer(st, slot, s', reply)
  }

  /** The option checks of an INIT, in order; fields are stored as they are accepted. The node id
      and ring of an already active session are overwritten although the INIT is refused. */
  function InitFields(s: Session, m: Decoded): (r: (Session, ErrorCode))
    ensures r.0.phase == s.phase && r.0.cluster == s.cluster
  {
    var code := if s.phase == Active then UnexpectedMessage else NoError;
    var (s, code) := if code == NoError && !m.nodeIdSet then (s, MissingOption)
                     else (s.(nodeId := m.nodeId), code);
    var (s, code) := if code == NoError && !m.ringSet then (s, MissingOption)
                     else (s.(ring := m.ring), code);
    var (s, code) := if code != NoError then (s, code)
                     else if !m.heartbeatSet then (s, MissingOption)
                     else if m.heartbeat < HEARTBEAT_MIN_MS || m.heartbeat > HEARTBEAT_MAX_MS
                     then (s, InvalidHeartbeat)
                     else (s.(heartbeat := m.heartbeat), code);
    var (s, code) := if code != NoError then (s, code)
                     else if !m.tieBreakerSet then (s, MissingOption)
                     else (s.(tieBreaker := m.tieBreaker), code);
    if code != NoError then (s, code)
    else if !m.algorithmSet then (s, MissingOption)
    else if m.algorithm != FFSPLIT then (s, UnsupportedAlgorithm)
    else (s.(algorithm := m.algorithm), NoError)
  }

  /** What, if anything, makes `s` incompatible with the session in slot `i`. */
  function Conflict(st: State, slot: nat, s: Session, i: nat): (code: ErrorCode)
    requires i < |st.sessions|
  {
    var o := st.sessions[i];
    if i == slot || o.phase != Active || o.clusterName != s.clusterName then NoError
    else if !SameTieBreaker(s.tieBreaker, o.tieBreaker) then TieBreakerDiffers
    else if s.algorithm != o.algorithm then AlgorithmDiffers
    else if s.nodeId == o.nodeId then DuplicateNodeId
    else NoError
  }

  /** The first conflict in slot order, from slot `i` on. */
  function FirstConflict(st: State, slot: nat, s: Session, i: nat): (code: ErrorCode)
    requires i <= |st.sessions|
    decreases |st.sessions| - i
  {
    if i == |st.sessions| then NoError
    else if Conflict(st, slot, s, i) != NoError then Conflict(st, slot, s, i)
    else FirstConflict(st, slot, s, i + 1)
  }

  lemma {:induction false} NoConflict(st: State, slot: nat, s: Session, i: nat)
    requires i <= |st.sessions|
    ensures FirstConflict(st, slot, s, i) == NoError <==>
            forall k :: i <= k < |st.sessions| ==> Conflict(st, slot, s, k) == NoError
    decreases |st.sessions| - i
  {
    if i < |st.sessions| {
      NoConflict(st, slot, s, i + 1);
    }
  }

  /** Index of the used cluster named `name`, from `i` on. */
  function ClusterNamed(cs: seq<Cluster>, name: seq<byte>, i: nat): (r: Option<nat>)
    requires i <= |cs|
    decreases |cs| - i
    ensures r.Some? ==> i <= r.value < |cs| && cs[r.value].used && cs[r.value].name == name
    ensures r.None? ==> forall k :: i <= k < |cs| && cs[k].used ==> cs[k].name != name
  {
    if i == |cs| then None
    else if cs[i].used && cs[i].name == name then Some(i)
    else ClusterNamed(cs, name, i + 1)
  }

  /** First unused cluster record, from `i` on. */
  function UnusedCluster(cs: seq<Cluster>, i: nat): (r: Option<nat>)
    requires i <= |cs|
    decreases |cs| - i
    ensures r.Some? ==> i <= r.value < |cs| && !cs[r.value].used
    ensures r.None? ==> forall k :: i <= k < |cs| ==> cs[k].used
  {
    if i == |cs| then None
    else if !cs[i].used then Some(i)
    else UnusedCluster(cs, i + 1)
  }

  /** The cluster of that name, else a fresh record for it, else none. */
  function FindOrCreate(cs: seq<Cluster>, name: seq<byte>): (r: (Option<nat>, seq<Cluster>))
    ensures |r.1| == |cs|
    ensures r.0.Some? ==> r.0.value < |cs| && r.1[r.0.value].used && r.1[r.0.value].name == name
  {
    match ClusterNamed(cs, name, 0)
    case Some(c) => (Some(c), cs)
    case None =>
      match UnusedCluster(cs, 0)
      case Some(c) => (Some(c), cs[c := NoCluster.(used := true, name := name)])
      case None => (None, cs)
  }

  /** Dead-peer deadline, renewed whenever the peer is heard. */
  function Rescheduled(s: Session, now: nat): (r: Session) {
    if s.phase == Active && s.heartbeat > 0 then s.(deadline := now + 3 * s.heartbeat / 2)
    else if s.phase != Free && s.phase != Active then s.(deadline := now + PREACTIVE_TIMEOUT_MS)
    else s
  }

  /** Admission of `s` (whose options passed) into its cluster: the cluster records afterwards and
      the session as it becomes active. */
  function Admit(cs: seq<Cluster>, s: Session, now: nat): (r: (seq<Cluster>, Session, ErrorCode))
    ensures |r.0| == |cs|
    ensures r.2 != NoError ==> r.0 == cs && r.1 == s
    ensures r.2 == NoError ==> r.1.phase == Active && 0 <= r.1.cluster < |cs|
  {
    var (c, cs') := FindOrCreate(cs, s.clusterName);
    if c.None? then (cs, s, InternalError)
    else
      var c := c.value;
      var cl := if cs'[c].members == 0 then cs'[c].(state := WaitingForChange, quorate := []) else cs'[c];
      (cs'[c := cl.(members := cl.members + 1)], Rescheduled(s.(cluster := c, phase := Active), now), NoError)
  }

  /** Outcome of an INIT: option checks, consistency with the cluster's members, admission. */
  function InitOutcome(st: State, slot: nat, m: Decoded, now: nat): (r: (seq<Cluster>, Session, ErrorCode))
    requires slot < |st.sessions|
  {
    var (s, code) := InitFields(st.sessions[slot], m);
    if code != NoError then (st.clusters, s, code)
    else if FirstConflict(st, slot, s, 0) != NoError then (st.clusters, s, FirstConflict(st, slot, s, 0))
    else Admit(st.clusters, s, now)
  }

  lemma InitEdits(st: State, slot: nat, m: Decoded, now: nat)
    requires Open(st, slot) && Indexed(st)
    ensures var (cs, s, code) := InitOutcome(st, slot, m, now);
            |cs| == |st.clusters| && Edit(st, st.sessions[slot], s)
  {
  }

  ghost function HandleInit(st: State, slot: nat, m: Decoded, now: nat, maxRx: u32): (r: State)
    requires Open(st, slot) && Indexed(st)
    ensures HandlerFrame(st, r)
  {
    var (cs, s, code) := InitOutcome(st, slot, m, now);
    var reply := InitReply(m.seqNumberSet, m.seqNumber, code, m.supportedMessages, m.supportedOptions, maxRx, maxRx);
    InitEdits(st, slot, m, now);
    AnswerFrame(st, st.(clusters := cs), slot, s, reply);
    Answer(st.(clusters := cs), slot, s, reply)
  }

  ghost function HandleSetOption(st: State, slot: nat, m: Decoded, now: nat): (r: State)
    requires Open(st, slot) && Indexed(st)
    ensures HandlerFrame(st, r)
  {
    var s := st.sessions[slot];
    if m.heartbeatSet && (m.heartbeat < HEARTBEAT_MIN_MS || m.heartbeat > HEARTBEAT_MAX_MS)
    then SendErr(st, slot, m, InvalidHeartbeat)
    else
      var s' := WithOptions(s, m, now);
      var reply := SetOptionReply(m.seqNumberSet, m.seqNumber, m.heartbeatSet, s'.heartbeat,
                                  m.keepActive.Some?, if s'.keepActive then 1 else 0);
      AnswerFrame(st, st, slot, s', reply);
      Answer(st, slot, s', reply)
  }

  /** The options of a SET_OPTION message taken over. */
  function WithOptions(s: Session, m: Decoded, now: nat): (r: Session)
    ensures r.phase == s.phase && r.cluster == s.cluster
  {
    var s1 := if m.heartbeatSet then Rescheduled(s.(heartbeat := m.heartbeat), now) else s;
    if m.keepActive.Some? then s1.(keepActive := m.keepActive.value != 0) else s1
  }

  // ---------------------------------------------------------------- node lists and votes

  /** The voting outcome recorded for the client a reply is about to go to. */
  function Answered(s: Session, result: Vote): (r: Session) {
    s.(poll := s.poll.(lastAckNack := if result == Ack || result == Nack then result else s.poll.lastAckNack))
  }

  /** A configuration list: the algorithm sees it before it is stored. */
  ghost function ConfigReceived(st: State, slot: nat, m: Decoded): (r: (State, Vote))
    requires Open(st, slot) && Indexed(st) && st.sessions[slot].phase == Active
  {
    var s := st.sessions[slot];
    if m.listType == Some(InitialConfig) || s.membership == [] then (st, AskLater)
    else FfsplitDo(st, Trigger(slot, false, s.ring, m.nodes, s.membership, s.heuristics))
  }

  /** A membership list with its ring and heuristics result. */
  ghost function MembershipReceived(st: State, slot: nat, m: Decoded): (r: (State, Vote))
    requires Open(st, slot) && Indexed(st) && st.sessions[slot].phase == Active
  {
    var s := st.sessions[slot];
    if s.config == [] then (st, AskLater)
    else FfsplitDo(st, Trigger(slot, false, m.ring, s.config, m.nodes, m.heuristics))
  }

  ghost function StoreAndReply(st: State, st1: State, slot: nat, m: Decoded, s: Session, result: Vote): (r: State)
    requires Open(st, slot) && Indexed(st) && m.listType.Some?
    requires VoteStep(st, st1) && Edit(st, st.sessions[slot], s)
    ensures HandlerFrame(st, r)
  {
    var reply := NodeListReply(m.seqNumber, m.listType.value, s.ring, result);
    AnswerFrame(st, st1, slot, Answered(s, result), reply);
    Answer(st1, slot, Answered(s, result), reply)
  }

  ghost function HandleNodeList(st: State, slot: nat, m: Decoded): (r: State)
    requires Open(st, slot) && Indexed(st) && st.sessions[slot].phase == Active
    ensures HandlerFrame(st, r)
  {
    if m.listType.None? || !m.seqNumberSet then SendErr(st, slot, m, MissingOption)
    else
      match m.listType.value
      case Membership =>
        if !m.ringSet then SendErr(st, slot, m, MissingOption)
        else if !Has(m.nodes, st.sessions[slot].nodeId) then SendErr(st, slot, m, InvalidMembershipList)
        else
          var (st1, result) := MembershipReceived(st, slot, m);
          MembershipVoteStep(st, slot, m);
          var s := st1.sessions[slot].(membership := m.nodes, ring := m.ring, heuristics := m.heuristics);
          StoreAndReply(st, st1, slot, m, s, result)
      case Quorum =>
        if m.quorate.None? then SendErr(st, slot, m, MissingOption)
        else StoreAndReply(st, st, slot, m, st.sessions[slot], NoChange)
      case _ =>
        if !Has(m.nodes, st.sessions[slot].nodeId) then SendErr(st, slot, m, InvalidConfigList)
        else
          var (st1, result) := ConfigReceived(st, slot, m);
          ConfigVoteStep(st, slot, m);
          StoreAndReply(st, st1, slot, m, st1.sessions[slot].(config := m.nodes), result)
  }

  lemma MembershipVoteStep(st: State, slot: nat, m: Decoded)
    requires Open(st, slot) && Indexed(st) && st.sessions[slot].phase == Active
    ensures VoteStep(st, MembershipReceived(st, slot, m).0)
  {
    var s := st.sessions[slot];
    if s.config != [] {
      FfsplitVoteStep(st, Trigger(slot, false, m.ring, s.config, m.nodes, m.heuristics));
    }
  }

  lemma ConfigVoteStep(st: State, slot: nat, m: Decoded)
    requires Open(st, slot) && Indexed(st) && st.sessions[slot].phase == Active
    ensures VoteStep(st, ConfigReceived(st, slot, m).0)
  {
    var s := st.sessions[slot];
    if !(m.listType == Some(InitialConfig) || s.membership == []) {
      FfsplitVoteStep(st, Trigger(slot, false, s.ring, m.nodes, s.membership, s.heuristics));
    }
  }

  ghost function HandleVoteInfoReply(st: State, slot: nat, m: Decoded): (r: State)
    requires Open(st, slot) && Indexed(st) && st.sessions[slot].phase == Active
    ensures HandlerFrame(st, r)
  {
    if !m.seqNumberSet then SendErr(st, slot, m, MissingOption)
    else if m.seqNumber != st.sessions[slot].poll.voteSeq then st
    else
      AcknowledgeVoteStep(st, slot);
      Acknowledge(st, slot)
  }

  ghost function HeuristicsReceived(st: State, slot: nat, h: Heuristics): (r: (State, Vote))
    requires Open(st, slot) && Indexed(st) && st.sessions[slot].phase == Active
  {
    var s := st.sessions[slot];
    if s.config == [] || s.membership == [] then (st, AskLater)
    else FfsplitDo(st, Trigger(slot, false, s.ring, s.config, s.membership, h))
  }

  ghost function HandleHeuristicsChange(st: State, slot: nat, m: Decoded): (r: State)
    requires Open(st, slot) && Indexed(st) && st.sessions[slot].phase == Active
    ensures HandlerFrame(st, r)
  {
    if !m.seqNumberSet || m.heuristics == HeurUndefined then SendErr(st, slot, m, MissingOption)
    else
      var (st1, result) := HeuristicsReceived(st, slot, m.heuristics);
      HeuristicsVoteStep(st, slot, m.heuristics);
      var s := st1.sessions[slot].(heuristics := m.heuristics);
      var reply := HeuristicsChangeReply(m.seqNumberSet, m.seqNumber, result);
      AnswerFrame(st, st1, slot, Answered(s, result), reply);
      Answer(st1, slot, Answered(s, result), reply)
  }

  lemma HeuristicsVoteStep(st: State, slot: nat, h: Heuristics)
    requires Open(st, slot) && Indexed(st) && st.sessions[slot].phase == Active
    ensures VoteStep(st, HeuristicsReceived(st, slot, h).0)
  {
    var s := st.sessions[slot];
    if s.config != [] && s.membership != [] {
      FfsplitVoteStep(st, Trigger(slot, false, s.ring, s.config, s.membership, h));
    }
  }

  // ---------------------------------------------------------------- dispatch

  /** A decoded message, gated by the phase of the session. */
  ghost function HandleMsg(st: State, slot: nat, t: u16, m: Decoded, frame: seq<byte>, now: nat, maxRx: u32): (r: State)
    requires Open(st, slot) && Indexed(st)
    ensures HandlerFrame(st, r)
  {
    var s := st.sessions[slot];
    if t != PREINIT && s.phase == WaitPreinit then SendErr(st, slot, m, PreinitRequired)
    else if t == PREINIT then HandlePreinit(st, slot, m)
    else if t == INIT then HandleInit(st, slot, m, now, maxRx)
    else if s.phase != Active then SendErr(st, slot, m, InitRequired)
    else if t == SET_OPTION then HandleSetOption(st, slot, m, now)
    else if t == ECHO_REQUEST then Emit(st, slot, EchoReply(frame))
    else if t == NODE_LIST then HandleNodeList(st, slot, m)
    else if t == VOTE_INFO_REPLY then HandleVoteInfoReply(st, slot, m)
    else if t == HEURISTICS_CHANGE then HandleHeuristicsChange(st, slot, m)
    else if t == ASK_FOR_VOTE then SendErr(st, slot, m, UnsupportedAlgorithmMessage)
    else if t == STARTTLS then SendErr(st, slot, m, UnsupportedMessage)
    else SendErr(st, slot, m, UnexpectedMessage)
  }
}
