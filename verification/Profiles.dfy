/** What the server knows of a client is what the client told it: after every run the stored session
    is the profile its accepted messages make up. Message types and bounds are given by number. */
module Profiles {
  import opened Wire
  import opened Msg
  import opened Codec
  import T = Tlv
  import opened ServerState
  import opened Votes
  import opened Protocol
  import opened Events
  import opened Invariants
  import opened Runs
  import opened Framing
  import opened Answers
  import opened DeadPeers

  /** A client before it is heard, once it has named its cluster, and as an active member. */
  datatype Profile =
    | Unknown
    | Named(name: seq<byte>)
    | Enrolled(name: seq<byte>, nodeId: u32, ring: RingId, heartbeat: u32, tieBreaker: TieBreaker, keepActive: bool,
               config: NodeList, membership: NodeList, heuristics: Heuristics)

  /** The client's profile after message `m` of type `t`, sent when the cluster would or would not
      `welcome` it. */
  function Heed(p: Profile, welcome: bool, t: u16, m: Decoded): (r: Profile) {
    match p
    case Unknown => if t == 0 && m.clusterName != [] then Named(m.clusterName) else p
    case Named(name) =>
      if t == 3 && welcome
      then Enrolled(name, m.nodeId, m.ring, m.heartbeat, m.tieBreaker, true, [], [], HeurUndefined)
      else p
    case Enrolled(_, _, _, _, _, _, _, _, _) =>
      if t == 3 then p.(nodeId := m.nodeId, ring := m.ring)
      else if t == 6 then Adjusted(p, m)
      else if t == 10 && m.seqNumberSet then Reported(p, m)
      else if t == 16 && m.seqNumberSet && m.heuristics != HeurUndefined then p.(heuristics := m.heuristics)
      else p
  }

  /** New options, unless the heartbeat is out of range. */
  function Adjusted(p: Profile, m: Decoded): (r: Profile)
    requires p.Enrolled?
  {
    if m.heartbeatSet && !(1000 <= m.heartbeat <= 120000) then p
    else p.(heartbeat := if m.heartbeatSet then m.heartbeat else p.heartbeat,
            keepActive := if m.keepActive.Some? then m.keepActive.value != 0 else p.keepActive)
  }

  /** A new list, if it names its sender. */
  function Reported(p: Profile, m: Decoded): (r: Profile)
    requires p.Enrolled?
  {
    match m.listType
    case Some(Membership) =>
      if m.ringSet && p.nodeId in Ids(m.nodes)
      then p.(membership := m.nodes, ring := m.ring, heuristics := m.heuristics)
      else p
    case Some(InitialConfig) => if p.nodeId in Ids(m.nodes) then p.(config := m.nodes) else p
    case Some(ChangedConfig) => if p.nodeId in Ids(m.nodes) then p.(config := m.nodes) else p
    case _ => p
  }

  /** Session `s` is what the profile says. */
  predicate Matches(s: Session, p: Profile) {
    match p
    case Unknown => s.phase == WaitPreinit && Blank(s)
    case Named(name) => s.phase == WaitInit && s.clusterName == name && Blank(s)
    case Enrolled(name, id, ring, hb, tb, keep, cfg, mem, h) =>
      && s.phase == Active && s.clusterName == name && s.nodeId == id && s.ring == ring && s.heartbeat == hb
      && s.tieBreaker == tb && s.keepActive == keep && s.config == cfg && s.membership == mem && s.heuristics == h
  }

  predicate Blank(s: Session) {
    s.keepActive && s.config == [] && s.membership == [] && s.heuristics == HeurUndefined
  }

  /** An INIT with these contents is admitted: complete, in range, in agreement with the active members
      of its cluster, and there is a record for the cluster. */
  ghost predicate Welcome(st: State, slot: nat, m: Decoded)
    requires slot < |st.sessions|
  {
    && m.nodeIdSet && m.ringSet && m.heartbeatSet && 1000 <= m.heartbeat <= 120000
    && m.tieBreakerSet && m.algorithmSet && m.algorithm == 1
    && Fits(st, slot, m) && HasRoom(st.clusters, st.sessions[slot].clusterName)
  }

  // ---------------------------------------------------------------- one message

  /** From `a` to `b` only the session in `slot` changed, apart from votes. */
  ghost predicate OnlyHere(a: State, b: State, slot: nat) {
    && |b.sessions| == |a.sessions|
    && forall i :: 0 <= i < |a.sessions| && i != slot ==> VoteFieldsOnly(a.sessions[i], b.sessions[i])
  }

  /** What a message makes of its sender, and that it changes nobody else. */
  ghost predicate Heeds(a: State, b: State, slot: nat, p: Profile) {
    slot < |a.sessions| && OnlyHere(a, b, slot) && Matches(b.sessions[slot], p)
  }

  lemma StoreHeeds(st: State, st1: State, slot: nat, s: Session, frame: Reply, p: Profile)
    requires VoteStep(st, st1) && slot < |st.sessions| && Matches(s, p)
    ensures Heeds(st, Answer(st1, slot, s, frame), slot, p)
  {
    forall i | 0 <= i < |st.sessions| && i != slot
      ensures VoteFieldsOnly(st.sessions[i], Answer(st1, slot, s, frame).sessions[i])
    {
      assert VoteFieldsOnly(st.sessions[i], st1.sessions[i]);
    }
  }

  lemma ErrHeeds(st: State, slot: nat, m: Decoded, code: ErrorCode, p: Profile)
    requires slot < |st.sessions| && Matches(st.sessions[slot], p)
    ensures Heeds(st, SendErr(st, slot, m, code), slot, p)
  {
  }

  lemma HelloHeeds(st: State, slot: nat, m: Decoded, p: Profile)
    requires Open(st, slot) && Indexed(st) && Matches(st.sessions[slot], p)
    ensures Heeds(st, HandlePreinit(st, slot, m), slot, Heed(p, false, 0, m))
  {
  }

  lemma InitHeeds(st: State, slot: nat, m: Decoded, now: nat, maxRx: u32, p: Profile)
    requires Open(st, slot) && Indexed(st) && Matches(st.sessions[slot], p) && !p.Unknown?
    ensures Heeds(st, HandleInit(st, slot, m, now, maxRx), slot, Heed(p, Welcome(st, slot, m), 3, m))
  {
    AcceptedIff(st, slot, m, now);
    InitMatches(st, slot, m, now, p);
  }

  lemma InitMatches(st: State, slot: nat, m: Decoded, now: nat, p: Profile)
    requires Open(st, slot) && Indexed(st) && Matches(st.sessions[slot], p) && !p.Unknown?
    requires InitOutcome(st, slot, m, now).2 == NoError <==> st.sessions[slot].phase != Active && Welcome(st, slot, m)
    ensures Matches(InitOutcome(st, slot, m, now).1, Heed(p, Welcome(st, slot, m), 3, m))
  {
  }

  lemma OptionHeeds(st: State, slot: nat, m: Decoded, now: nat, p: Profile)
    requires Open(st, slot) && Indexed(st) && p.Enrolled? && Matches(st.sessions[slot], p)
    ensures Heeds(st, HandleSetOption(st, slot, m, now), slot, Heed(p, false, 6, m))
  {
  }

  lemma MembershipHeeds(st: State, slot: nat, m: Decoded, p: Profile)
    requires Open(st, slot) && Indexed(st) && p.Enrolled? && Matches(st.sessions[slot], p)
    requires m.listType == Some(Membership) && m.seqNumberSet && m.ringSet && p.nodeId in Ids(m.nodes)
    ensures Heeds(st, HandleNodeList(st, slot, m), slot, Heed(p, false, 10, m))
  {
    MembershipVoteStep(st, slot, m);
    var (st1, v) := MembershipReceived(st, slot, m);
    assert VoteFieldsOnly(st.sessions[slot], st1.sessions[slot]);
    var s := Answered(st1.sessions[slot].(membership := m.nodes, ring := m.ring, heuristics := m.heuristics), v);
    var frame := NodeListReply(m.seqNumber, Membership, m.ring, v);
    assert HandleNodeList(st, slot, m) == Answer(st1, slot, s, frame);
    StoreHeeds(st, st1, slot, s, frame, Heed(p, false, 10, m));
  }

  lemma ConfigHeeds(st: State, slot: nat, m: Decoded, p: Profile)
    requires Open(st, slot) && Indexed(st) && p.Enrolled? && Matches(st.sessions[slot], p)
    requires (m.listType == Some(InitialConfig) || m.listType == Some(ChangedConfig)) && m.seqNumberSet
    requires p.nodeId in Ids(m.nodes)
    ensures Heeds(st, HandleNodeList(st, slot, m), slot, Heed(p, false, 10, m))
  {
    ConfigVoteStep(st, slot, m);
    var (st1, v) := ConfigReceived(st, slot, m);
    assert VoteFieldsOnly(st.sessions[slot], st1.sessions[slot]);
    var s := Answered(st1.sessions[slot].(config := m.nodes), v);
    var frame := NodeListReply(m.seqNumber, m.listType.value, s.ring, v);
    assert HandleNodeList(st, slot, m) == Answer(st1, slot, s, frame);
    StoreHeeds(st, st1, slot, s, frame, Heed(p, false, 10, m));
  }

  lemma ListHeeds(st: State, slot: nat, m: Decoded, p: Profile)
    requires Open(st, slot) && Indexed(st) && p.Enrolled? && Matches(st.sessions[slot], p)
    ensures Heeds(st, HandleNodeList(st, slot, m), slot, Heed(p, false, 10, m))
  {
    if m.seqNumberSet && m.listType == Some(Membership) && m.ringSet && p.nodeId in Ids(m.nodes) {
      MembershipHeeds(st, slot, m, p);
    } else if m.seqNumberSet && (m.listType == Some(InitialConfig) || m.listType == Some(ChangedConfig))
              && p.nodeId in Ids(m.nodes) {
      ConfigHeeds(st, slot, m, p);
    } else {
      assert Heed(p, false, 10, m) == p;
      NotedHeeds(st, slot, m, p);
    }
  }

  /** A list that is refused or only noted. */
  lemma NotedHeeds(st: State, slot: nat, m: Decoded, p: Profile)
    requires Open(st, slot) && Indexed(st) && p.Enrolled? && Matches(st.sessions[slot], p)
    requires !m.seqNumberSet || m.listType.None? || m.listType == Some(Quorum) || p.nodeId !in Ids(m.nodes)
             || (m.listType == Some(Membership) && !m.ringSet)
    ensures Heeds(st, HandleNodeList(st, slot, m), slot, p)
  {
    if m.seqNumberSet && m.listType == Some(Quorum) && m.quorate.Some? {
      var s := st.sessions[slot];
      StoreHeeds(st, st, slot, Answered(s, NoChange), NodeListReply(m.seqNumber, Quorum, s.ring, NoChange), p);
    } else {
      assert HandleNodeList(st, slot, m).sessions == st.sessions;
    }
  }

  lemma HeuristicsHeeds(st: State, slot: nat, m: Decoded, p: Profile)
    requires Open(st, slot) && Indexed(st) && p.Enrolled? && Matches(st.sessions[slot], p)
    ensures Heeds(st, HandleHeuristicsChange(st, slot, m), slot, Heed(p, false, 16, m))
  {
    if m.seqNumberSet && m.heuristics != HeurUndefined {
      HeuristicsVoteStep(st, slot, m.heuristics);
      var (st1, v) := HeuristicsReceived(st, slot, m.heuristics);
      assert VoteFieldsOnly(st.sessions[slot], st1.sessions[slot]);
      var s := Answered(st1.sessions[slot].(heuristics := m.heuristics), v);
      var frame := HeuristicsChangeReply(m.seqNumberSet, m.seqNumber, v);
      assert HandleHeuristicsChange(st, slot, m) == Answer(st1, slot, s, frame);
      StoreHeeds(st, st1, slot, s, frame, Heed(p, false, 16, m));
    } else {
      ErrHeeds(st, slot, m, MissingOption, p);
    }
  }

  lemma ReplyHeeds(st: State, slot: nat, m: Decoded, p: Profile)
    requires Open(st, slot) && Indexed(st) && p.Enrolled? && Matches(st.sessions[slot], p)
    ensures Heeds(st, HandleVoteInfoReply(st, slot, m), slot, p)
  {
    if m.seqNumberSet && m.seqNumber == st.sessions[slot].poll.voteSeq {
      AcknowledgeVoteStep(st, slot);
      forall i | 0 <= i < |st.sessions|
        ensures VoteFieldsOnly(st.sessions[i], Acknowledge(st, slot).sessions[i])
      {
      }
    }
  }

  /** Every message, in every phase: the sender's session afterwards is its profile afterwards, and
      nobody else's changes but for votes. */
  lemma MsgHeeds(st: State, slot: nat, t: u16, m: Decoded, frame: seq<byte>, now: nat, maxRx: u32, p: Profile)
    requires Open(st, slot) && Indexed(st) && Matches(st.sessions[slot], p)
    ensures Heeds(st, HandleMsg(st, slot, t, m, frame, now, maxRx), slot, Heed(p, Welcome(st, slot, m), t, m))
  {
    if t == PREINIT {
      HelloHeeds(st, slot, m, p);
    } else if t == INIT && !p.Unknown? {
      InitHeeds(st, slot, m, now, maxRx, p);
    } else if p.Enrolled? && t == SET_OPTION {
      OptionHeeds(st, slot, m, now, p);
    } else if p.Enrolled? && t == NODE_LIST {
      ListHeeds(st, slot, m, p);
    } else if p.Enrolled? && t == HEURISTICS_CHANGE {
      HeuristicsHeeds(st, slot, m, p);
    } else if p.Enrolled? && t == VOTE_INFO_REPLY {
      ReplyHeeds(st, slot, m, p);
    } else {
      assert HandleMsg(st, slot, t, m, frame, now, maxRx).sessions == st.sessions;
    }
  }

  // ---------------------------------------------------------------- streams of messages

  /** The profile after the frames `fs`, handled one after the other from state `st`. */
  ghost function Heeded(p: Profile, st: State, slot: nat, fs: seq<seq<byte>>, now: nat, maxRx: u32): (r: Profile)
    requires Open(st, slot) && Indexed(st) && AllWhole(Decodes, fs, maxRx)
    decreases |fs|
  {
    if fs == [] then p
    else
      assert Whole(Decodes, fs[0], maxRx);
      var t, m := T.Get16(fs[0]), Message(fs[0]).value;
      Heeded(Heed(p, Welcome(st, slot, m), t, m), HandleMsg(st, slot, t, m, fs[0], now, maxRx), slot, fs[1..], now,
             maxRx)
  }

  lemma {:induction false} HandledHeeds(st: State, slot: nat, fs: seq<seq<byte>>, now: nat, maxRx: u32, p: Profile)
    requires Open(st, slot) && Indexed(st) && AllWhole(Decodes, fs, maxRx) && Matches(st.sessions[slot], p)
    ensures Heeds(st, Handled(st, slot, fs, now, maxRx), slot, Heeded(p, st, slot, fs, now, maxRx))
    decreases |fs|
  {
    if fs != [] {
      assert Whole(Decodes, fs[0], maxRx);
      var t, m := T.Get16(fs[0]), Message(fs[0]).value;
      var st1 := HandleMsg(st, slot, t, m, fs[0], now, maxRx);
      var p1 := Heed(p, Welcome(st, slot, m), t, m);
      MsgHeeds(st, slot, t, m, fs[0], now, maxRx, p);
      HandledHeeds(st1, slot, fs[1..], now, maxRx, p1);
      OnlyHereTrans(st, st1, Handled(st1, slot, fs[1..], now, maxRx), slot);
    }
  }

  lemma OnlyHereTrans(a: State, b: State, c: State, slot: nat)
    requires OnlyHere(a, b, slot) && OnlyHere(b, c, slot)
    ensures OnlyHere(a, c, slot)
  {
    forall i | 0 <= i < |a.sessions| && i != slot
      ensures VoteFieldsOnly(a.sessions[i], c.sessions[i])
    {
      assert VoteFieldsOnly(a.sessions[i], b.sessions[i]) && VoteFieldsOnly(b.sessions[i], c.sessions[i]);
    }
  }

  // ---------------------------------------------------------------- runs

  /** The profile of the client in `slot` after one more input. */
  ghost function ProfileAfter(p: Profile, h: Host, e: Input, slot: nat, maxRx: u32): (r: Profile)
    requires Ready(h)
  {
    match e
    case Connect(_) => if FreeSlot(h.core, 0) == Some(slot) then Unknown else p
    case Data(s, bytes, now) =>
      if s == slot && OpenSlot(h, slot) then
        var c := Split(h.rx[slot] + bytes, maxRx);
        SplitJoins(Decodes, h.rx[slot] + bytes, maxRx);
        Heeded(p, Renewed(h.core, slot, now), slot, c.frames, now, maxRx)
      else p
    case _ => p
  }

  ghost function ProfileOf(es: seq<Input>, maxRx: u32, slot: nat): (p: Profile) {
    if es == [] then Unknown
    else ProfileAfter(ProfileOf(es[..|es| - 1], maxRx, slot), Run(es[..|es| - 1], maxRx), es[|es| - 1], slot, maxRx)
  }

  /** An open session is what its client's profile says. */
  predicate Known(h: Host, slot: nat, p: Profile) {
    OpenSlot(h, slot) ==> Matches(h.core.sessions[slot], p)
  }

  lemma KnownData(h: Host, s: nat, data: seq<byte>, now: nat, maxRx: u32, slot: nat, p: Profile, q: Profile)
    requires Idle(h, maxRx) && OpenSlot(h, s) && slot < |h.core.sessions| && Known(h, slot, p)
    requires Matches(h.core.sessions[s], q) && (s == slot ==> q == p)
    ensures Known(OnData(h, s, data, now, maxRx), slot, ProfileAfter(p, h, Data(s, data, now), slot, maxRx))
  {
    DataEffect(h, s, data, now, maxRx);
    KnownFed(h, s, Split(h.rx[s] + data, maxRx), now, maxRx, slot, p, q);
  }

  lemma KnownFed(h: Host, s: nat, c: Cut, now: nat, maxRx: u32, slot: nat, p: Profile, q: Profile)
    requires Ready(h) && OpenSlot(h, s) && AllWhole(Decodes, c.frames, maxRx)
    requires slot < |h.core.sessions| && Known(h, slot, p) && Matches(h.core.sessions[s], q)
    ensures Known(Fed(h, s, c, now, maxRx), slot,
                  if s == slot then Heeded(q, Renewed(h.core, s, now), s, c.frames, now, maxRx) else p)
  {
    var st := Renewed(h.core, s, now);
    var st1 := Handled(st, s, c.frames, now, maxRx);
    HandledHeeds(st, s, c.frames, now, maxRx, q);
    KnownHandled(h.core, st, st1, s, slot, p);
    if c.fault.Some? {
      var st2 := SendErr(st1, s, Msg.Blank(), c.fault.value);
      KnownEvicted(st2, s, slot, p);
      KnownBroken(h, s, c, now, maxRx, st2);
    } else {
      KnownWhole(h, s, c, now, maxRx, st1);
    }
  }

  lemma KnownBroken(h: Host, s: nat, c: Cut, now: nat, maxRx: u32, st2: State)
    requires Ready(h) && OpenSlot(h, s) && AllWhole(Decodes, c.frames, maxRx) && c.fault.Some?
    requires st2 == SendErr(Handled(Renewed(h.core, s, now), s, c.frames, now, maxRx), s, Msg.Blank(), c.fault.value)
    ensures Open(st2, s) && Indexed(st2) && Fed(h, s, c, now, maxRx).core == Evict(st2, s)
  {
  }

  lemma KnownWhole(h: Host, s: nat, c: Cut, now: nat, maxRx: u32, st1: State)
    requires Ready(h) && OpenSlot(h, s) && AllWhole(Decodes, c.frames, maxRx) && c.fault.None?
    requires st1 == Handled(Renewed(h.core, s, now), s, c.frames, now, maxRx)
    ensures Fed(h, s, c, now, maxRx).core == st1
  {
  }

  /** The session in another slot once the frames of `s` have been handled. */
  lemma KnownHandled(core: State, st: State, st1: State, s: nat, slot: nat, p: Profile)
    requires s < |core.sessions| == |st.sessions| && slot < |core.sessions| && OnlyHere(st, st1, s)
    requires st == SetSession(core, s, st.sessions[s])
    requires Open(core, slot) ==> Matches(core.sessions[slot], p)
    ensures s != slot && Open(st1, slot) ==> Matches(st1.sessions[slot], p)
  {
    if s != slot {
      assert VoteFieldsOnly(st.sessions[slot], st1.sessions[slot]);
    }
  }

  lemma KnownEvicted(st: State, s: nat, slot: nat, p: Profile)
    requires Open(st, s) && Indexed(st) && slot < |st.sessions|
    requires s != slot && Open(st, slot) ==> Matches(st.sessions[slot], p)
    ensures Open(Evict(st, s), slot) ==> s != slot && Matches(Evict(st, s).sessions[slot], p)
  {
  }

  lemma {:induction false} KnownTick(h: Host, now: nat, i: nat, maxRx: u32, slot: nat, p: Profile)
    requires Idle(h, maxRx) && i <= |h.core.sessions| && slot < |h.core.sessions| && Known(h, slot, p)
    ensures Known(TickFrom(h, now, i), slot, p)
    decreases |h.core.sessions| - i
  {
    if i < |h.core.sessions| {
      if Expired(h, now, i) {
        DisconnectIdle(h, i, maxRx);
        KnownDisconnect(h, i, maxRx, slot, p);
        KnownTick(Disconnect(h, i), now, i + 1, maxRx, slot, p);
      } else {
        KnownTick(h, now, i + 1, maxRx, slot, p);
      }
    }
  }

  lemma KnownDisconnect(h: Host, i: nat, maxRx: u32, slot: nat, p: Profile)
    requires Idle(h, maxRx) && OpenSlot(h, i) && slot < |h.core.sessions| && Known(h, slot, p)
    ensures Known(Disconnect(h, i), slot, p)
  {
    assert Resting(h, maxRx, i);
    DrainOne(h.(closing := h.closing[i := true], pending := [i], processing := true), i);
    assert Disconnect(h, i).core == Evict(h.core, i);
  }

  lemma KnownLeft(h: Host, s: int, maxRx: u32, slot: nat, p: Profile)
    requires Idle(h, maxRx) && slot < |h.core.sessions| && Known(h, slot, p)
    ensures Known(OnDisconnected(h, s), slot, p)
  {
    if OpenSlot(h, s) {
      assert OnDisconnected(h, s).core == CloseSlot(h.core, s);
    }
  }

  lemma KnownStep(h: Host, e: Input, maxRx: u32, slot: nat, ps: seq<Profile>)
    requires Idle(h, maxRx) && slot < |h.core.sessions| == |ps|
    requires forall k :: 0 <= k < |ps| ==> Known(h, k, ps[k])
    ensures Known(Step(h, e, maxRx), slot, ProfileAfter(ps[slot], h, e, slot, maxRx))
  {
    match e
    case Connect(now) =>
    case Data(s, data, now) =>
      if OpenSlot(h, s) {
        assert Known(h, s, ps[s]) && Known(h, slot, ps[slot]);
        KnownData(h, s, data, now, maxRx, slot, ps[slot], ps[s]);
      }
    case Disconnected(s) => KnownLeft(h, s, maxRx, slot, ps[slot]);
    case Clock(now) => KnownTick(h, now, 0, maxRx, slot, ps[slot]);
  }

  /** The profiles of all slots. */
  ghost function ProfilesOf(es: seq<Input>, maxRx: u32): (ps: seq<Profile>) {
    seq(MAX_CLIENTS, k requires 0 <= k < MAX_CLIENTS => ProfileOf(es, maxRx, k))
  }

  /** After every run, whatever the peers sent: every open session is its client's profile. */
  lemma {:induction false} ProfileExact(es: seq<Input>, maxRx: u32, slot: nat)
    requires slot < MAX_CLIENTS
    ensures Known(Run(es, maxRx), slot, ProfileOf(es, maxRx, slot))
  {
    if es != [] {
      var es0 := es[..|es| - 1];
      forall k | 0 <= k < MAX_CLIENTS
        ensures Known(Run(es0, maxRx), k, ProfileOf(es0, maxRx, k))
      {
        ProfileExact(es0, maxRx, k);
      }
      RunInv(es0, maxRx);
      KnownStep(Run(es0, maxRx), es[|es| - 1], maxRx, slot, ProfilesOf(es0, maxRx));
    }
  }

  // ---------------------------------------------------------------- silence

  /** How long a client with this profile may be silent, in milliseconds: one and a half times the
      heartbeat it announced, half a minute before it is a member. */
  function Patience(p: Profile): (d: nat) {
    if p.Enrolled? then 3 * p.heartbeat / 2 else 30000
  }

  /** After every run: the deadline of an open session is its client's patience after it was last
      heard, and a tick closes exactly the sessions that were silent for that long. */
  lemma SilenceExact(es: seq<Input>, maxRx: u32, now: nat)
    ensures var h := Run(es, maxRx);
            && Ticked(h, Tick(h, now), now, 0)
            && forall slot :: 0 <= slot < MAX_CLIENTS && OpenSlot(h, slot) ==>
                 var due := PeerOf(es, maxRx, slot).heard + Patience(ProfileOf(es, maxRx, slot));
                 h.core.sessions[slot].deadline == due && (Expired(h, now, slot) <==> now >= due)
  {
    var h := Run(es, maxRx);
    SilenceCloses(es, maxRx, now);
    forall slot | 0 <= slot < MAX_CLIENTS && OpenSlot(h, slot)
      ensures var due := PeerOf(es, maxRx, slot).heard + Patience(ProfileOf(es, maxRx, slot));
              h.core.sessions[slot].deadline == due && (Expired(h, now, slot) <==> now >= due)
    {
      DeadlineExact(es, maxRx, now, slot);
    }
  }

  lemma DeadlineExact(es: seq<Input>, maxRx: u32, now: nat, slot: nat)
    requires slot < MAX_CLIENTS && OpenSlot(Run(es, maxRx), slot)
    ensures var h := Run(es, maxRx);
            var due := PeerOf(es, maxRx, slot).heard + Patience(ProfileOf(es, maxRx, slot));
            h.core.sessions[slot].deadline == due && (Expired(h, now, slot) <==> now >= due)
  {
    ProfileExact(es, maxRx, slot);
    PeerExact(es, maxRx, slot);
    SilenceCloses(es, maxRx, now);
  }
}
