/** Whole runs of the network, and what holds in all of them. */
module NetworkRuns {
  import opened Wire
  import opened Msg
  import opened ServerState
  import opened Votes
  import opened Protocol
  import opened Events
  import opened Invariants
  import opened Preservation
  import opened Messages
  import opened Effects
  import opened Network
  import opened NetworkSteps
  import Runs

  datatype Move =
    | Connect(now: nat)
    | Deliver(slot: nat, kind: u16, msg: Decoded, frame: seq<byte>, now: nat)
    | Reply(slot: nat, msg: Decoded, frame: seq<byte>, now: nat)
    | Apply(slot: nat)
    | End(slot: nat, evict: bool)
    | Touch(slot: nat, deadline: nat)
    | Refuse(slot: nat, code: ErrorCode)

  /** What a client can do: any message but a vote-info reply, or its oldest reply that the server
      has not taken, or apply its oldest vote-info. */
  ghost predicate Honest(n: Net, mv: Move) {
    match mv
    case Deliver(slot, t, m, _, _) =>
      Open(n.srv, slot) && t != VOTE_INFO_REPLY && CleanMsg(n.srv.sessions[slot], t, m)
    case Reply(slot, m, _, _) =>
      && slot < |n.links| && n.links[slot].up != [] && InFlight(n.links[slot]) <= WORD
      && m.seqNumberSet && m.seqNumber == n.links[slot].up[0]
    case Apply(slot) => slot < |n.links| && n.links[slot].down != []
    case _ => true
  }

  /** The slot a move of the server concerns is in use. */
  predicate Concerns(st: State, mv: Move) {
    !mv.Connect? && !mv.Apply? ==> Open(st, mv.slot)
  }

  ghost predicate Enabled(n: Net, mv: Move) {
    Honest(n, mv) && Concerns(n.srv, mv)
  }

  /** The cluster a session's step concerns; a session without one concerns none in particular. */
  function ClusterOf(st: State, slot: nat): (c: nat)
    requires slot < |st.sessions| && |st.clusters| > 0
  {
    if 0 <= st.sessions[slot].cluster < |st.clusters| then st.sessions[slot].cluster else 0
  }

  /** One link per slot and one latest decision per cluster record. */
  ghost predicate Shaped(n: Net) {
    && |n.links| == |n.srv.sessions| && |n.latest| == |n.srv.clusters| == MAX_CLUSTERS
    && Indexed(n.srv)
  }

  /** The server's part of a move. */
  ghost function Served(st: State, mv: Move, maxRx: u32): (b: State)
    requires Indexed(st) && Concerns(st, mv)
    ensures |b.sessions| == |st.sessions| && |b.clusters| == |st.clusters| && st.out <= b.out && Indexed(b)
  {
    match mv
    case Connect(now) => Connected(st, now)
    case Deliver(slot, t, m, frame, now) => HandleMsg(st, slot, t, m, frame, now, maxRx)
    case Reply(slot, m, frame, now) => HandleMsg(st, slot, VOTE_INFO_REPLY, m, frame, now, maxRx)
    case Apply(_) => st
    case End(slot, evict) => Ended(st, slot, evict)
    case Touch(slot, deadline) => SetSession(st, slot, st.sessions[slot].(deadline := deadline))
    case Refuse(slot, code) => SendErr(st, slot, Blank(), code)
  }

  ghost function Make(n: Net, mv: Move, maxRx: u32): (r: Net)
    requires Shaped(n) && Enabled(n, mv)
    ensures Shaped(r)
  {
    var b := Served(n.srv, mv, maxRx);
    match mv
    case Connect(_) => Advance(n, b, 0)
    case Deliver(slot, _, _, _, _) => Advance(n, b, ClusterOf(n.srv, slot))
    case Reply(slot, _, _, _) => Advance(TakeReply(n, slot), b, ClusterOf(n.srv, slot))
    case Apply(slot) => ClientApplies(n, slot)
    case End(slot, _) => Hangup(Advance(n, b, ClusterOf(n.srv, slot)), slot)
    case Touch(slot, _) => Advance(n, b, ClusterOf(n.srv, slot))
    case Refuse(slot, _) => Advance(n, b, ClusterOf(n.srv, slot))
  }

  // ---------------------------------------------------------------- every move keeps the invariant

  lemma ConnectMove(n: Net, now: nat)
    requires NetInv(n)
    ensures Calm(n.srv, Connected(n.srv, now)) && Inv(Connected(n.srv, now), true) && Indexed(Connected(n.srv, now))
  {
    var b := Connected(n.srv, now);
    Runs.ConnectedInv(n.srv, now, true);
    BookIndexed(b);
    forall i | 0 <= i < |n.srv.sessions|
      ensures CalmAt(n.srv, b, i) && NewVotes(n.srv, b, i) == []
    {
      NewVotesOf(n.srv, b, [], i);
      assert SessionOk(n.srv.sessions[i]);
    }
  }

  lemma TouchMove(n: Net, slot: nat, s': Session)
    requires NetInv(n) && Open(n.srv, slot)
    requires s' == n.srv.sessions[slot].(deadline := s'.deadline)
    ensures var b := SetSession(n.srv, slot, s'); Calm(n.srv, b) && Inv(b, true) && Indexed(b)
  {
    var b := SetSession(n.srv, slot, s');
    assert SessionOk(n.srv.sessions[slot]);
    EditInv(n.srv, slot, s', true);
    BookIndexed(b);
    forall i | 0 <= i < |n.srv.sessions|
      ensures CalmAt(n.srv, b, i) && NewVotes(n.srv, b, i) == []
    {
      NewVotesOf(n.srv, b, [], i);
    }
  }

  lemma RefuseMove(n: Net, slot: nat, code: ErrorCode)
    requires NetInv(n) && Open(n.srv, slot)
    ensures var b := SendErr(n.srv, slot, Blank(), code); Calm(n.srv, b) && Inv(b, true) && Indexed(b)
  {
    var b := SendErr(n.srv, slot, Blank(), code);
    InvSame(n.srv, b, true);
    CalmError(n.srv, slot, Blank(), code);
    BookIndexed(b);
  }

  lemma DeliverMove(n: Net, slot: nat, t: u16, m: Decoded, frame: seq<byte>, now: nat, maxRx: u32)
    requires NetInv(n) && Shaped(n) && Enabled(n, Deliver(slot, t, m, frame, now))
    ensures NetInv(Make(n, Deliver(slot, t, m, frame, now), maxRx))
  {
    var b := HandleMsg(n.srv, slot, t, m, frame, now, maxRx);
    HandleMsgInv(n.srv, slot, t, m, frame, now, maxRx, true);
    var tv := MsgEffect(n.srv, slot, t, m, frame, now, maxRx);
    if Calm(n.srv, b) {
      CalmNet(n, b, ClusterOf(n.srv, slot));
    } else {
      DecidesNet(n, tv, Selection.Winner(n.srv, tv), b);
    }
  }

  lemma CloseMove(n: Net, slot: nat, evict: bool, maxRx: u32)
    requires NetInv(n) && Shaped(n) && Open(n.srv, slot)
    ensures NetInv(Make(n, End(slot, evict), maxRx))
  {
    CloseNet(n, slot, evict);
    var r := Hangup(Advance(n, Ended(n.srv, slot, evict), ClusterOf(n.srv, slot)), slot);
    assert Make(n, End(slot, evict), maxRx) == r;
    assert NetInv(r);
  }

  lemma CloseNet(n: Net, slot: nat, evict: bool)
    requires NetInv(n) && Shaped(n) && Open(n.srv, slot)
    ensures var b := Ended(n.srv, slot, evict);
            Fits(n, b) && NetInv(Hangup(Advance(n, b, ClusterOf(n.srv, slot)), slot))
  {
    var b := Ended(n.srv, slot, evict);
    CloseAdvance(n, slot, evict);
    HangupInv(Advance(n, b, ClusterOf(n.srv, slot)), slot);
  }

  lemma CloseAdvance(n: Net, slot: nat, evict: bool)
    requires NetInv(n) && Shaped(n) && Open(n.srv, slot)
    ensures var b := Ended(n.srv, slot, evict);
            Fits(n, b) && NetInvBut(Advance(n, b, ClusterOf(n.srv, slot)), slot)
  {
    var b := Ended(n.srv, slot, evict);
    EndedInv(n.srv, slot, evict);
    var tv := StoredTrigger(n.srv, slot, true);
    if n.srv.sessions[slot].phase == Active && Stability.Stable(n.srv, tv) {
      CloseDecides(n.srv, slot, evict);
      DecidesNet(n, tv, Selection.Winner(n.srv, tv), b);
    } else {
      CloseIsCalm(n.srv, slot, evict);
      CalmCloseNet(n, b, slot, ClusterOf(n.srv, slot));
    }
  }

  lemma EndedInv(st: State, slot: nat, evict: bool)
    requires Open(st, slot) && Indexed(st) && Inv(st, true)
    ensures Inv(Ended(st, slot, evict), true)
  {
    CloseInv(st, slot, true);
    InvSame(CloseSlot(st, slot), Ended(st, slot, evict), true);
  }

  /** A reply that is not to the latest vote-info only leaves the channel. */
  lemma StaleMove(n: Net, slot: nat, m: Decoded, frame: seq<byte>, now: nat, maxRx: u32)
    requires NetInv(n) && Shaped(n) && Enabled(n, Reply(slot, m, frame, now)) && InFlight(n.links[slot]) != 1
    ensures Make(n, Reply(slot, m, frame, now), maxRx) == TakeReply(n, slot)
    ensures NetInv(TakeReply(n, slot))
  {
    var n1 := TakeReply(n, slot);
    var c := ClusterOf(n.srv, slot);
    assert LinkOk(n, slot);
    var s := n.srv.sessions[slot];
    ReplyMatches(n.links[slot], s.poll.voteSeq);
    var b := HandleMsg(n.srv, slot, VOTE_INFO_REPLY, m, frame, now, maxRx);
    assert b == n.srv;
    forall i | 0 <= i < |n1.links|
      ensures NewVotes(n1.srv, b, i) == []
    {
      NewVotesOf(n.srv, b, [], i);
    }
    QuietAdvance(n1, b, c);
    forall k | 0 <= k < |n.latest|
      ensures Advance(n1, b, c).latest[k] == n1.latest[k]
    {
      assert LatestOk(n, k);
    }
    assert Advance(n1, b, c).latest == n1.latest;
    StaleLink(s.poll, Has(n.srv.clusters[s.cluster].quorate, s.nodeId), n.srv.clusters[s.cluster].state,
              n.latest[s.cluster], n.links[slot]);
    RelinkInv(n, n1, slot);
  }

  lemma SettlingMove(n: Net, slot: nat, m: Decoded, frame: seq<byte>, now: nat, maxRx: u32)
    requires NetInv(n) && Shaped(n) && Enabled(n, Reply(slot, m, frame, now)) && InFlight(n.links[slot]) == 1
    ensures ValidTrigger(n.srv, StoredTrigger(n.srv, slot, false))
    ensures var b := Acknowledge(n.srv, slot);
            && HandleMsg(n.srv, slot, VOTE_INFO_REPLY, m, frame, now, maxRx) == b
            && Settles(n, b, slot)
            && Make(n, Reply(slot, m, frame, now), maxRx) == SettledNet(n, b, slot)
            && NetInv(SettledNet(n, b, slot))
  {
    assert LinkOk(n, slot);
    ReplyMatches(n.links[slot], n.srv.sessions[slot].poll.voteSeq);
    var b := Acknowledge(n.srv, slot);
    AcknowledgeEffect(n.srv, slot);
    assert HandleMsg(n.srv, slot, VOTE_INFO_REPLY, m, frame, now, maxRx) == b;
    AcknowledgedInv(n.srv, slot, m, b);
    SettlesNet(n, b, slot);
    assert Make(n, Reply(slot, m, frame, now), maxRx) == SettledNet(n, b, slot);
  }

  lemma AcknowledgedInv(st: State, slot: nat, m: Decoded, b: State)
    requires Open(st, slot) && Indexed(st) && Inv(st, true) && st.sessions[slot].phase == Active
    requires b == HandleVoteInfoReply(st, slot, m)
    ensures Inv(b, true) && Indexed(b)
  {
    VoteInfoReplyInv(st, slot, m, true);
  }

  lemma MakeInv(n: Net, mv: Move, maxRx: u32)
    requires NetInv(n) && Shaped(n) && Enabled(n, mv)
    ensures NetInv(Make(n, mv, maxRx))
  {
    match mv
    case Connect(now) => ConnectNet(n, now, maxRx);
    case Deliver(slot, t, m, frame, now) => DeliverMove(n, slot, t, m, frame, now, maxRx);
    case Reply(slot, m, frame, now) =>
      if InFlight(n.links[slot]) == 1 {
        SettlingMove(n, slot, m, frame, now, maxRx);
      } else {
        StaleMove(n, slot, m, frame, now, maxRx);
      }
    case Apply(slot) => AppliesNet(n, slot);
    case End(slot, evict) => CloseMove(n, slot, evict, maxRx);
    case Touch(slot, deadline) => TouchNet(n, slot, deadline, maxRx);
    case Refuse(slot, code) => RefuseNet(n, slot, code, maxRx);
  }

  lemma ConnectNet(n: Net, now: nat, maxRx: u32)
    requires NetInv(n) && Shaped(n)
    ensures NetInv(Make(n, Connect(now), maxRx))
  {
    ConnectMove(n, now);
    CalmNet(n, Connected(n.srv, now), 0);
    var r := Advance(n, Connected(n.srv, now), 0);
    assert Make(n, Connect(now), maxRx) == r;
    assert NetInv(r);
  }

  lemma TouchNet(n: Net, slot: nat, deadline: nat, maxRx: u32)
    requires NetInv(n) && Shaped(n) && Open(n.srv, slot)
    ensures NetInv(Make(n, Touch(slot, deadline), maxRx))
  {
    var b := SetSession(n.srv, slot, n.srv.sessions[slot].(deadline := deadline));
    TouchMove(n, slot, n.srv.sessions[slot].(deadline := deadline));
    CalmNet(n, b, ClusterOf(n.srv, slot));
    var r := Advance(n, b, ClusterOf(n.srv, slot));
    assert Make(n, Touch(slot, deadline), maxRx) == r;
    assert NetInv(r);
  }

  lemma RefuseNet(n: Net, slot: nat, code: ErrorCode, maxRx: u32)
    requires NetInv(n) && Shaped(n) && Open(n.srv, slot)
    ensures NetInv(Make(n, Refuse(slot, code), maxRx))
  {
    var b := SendErr(n.srv, slot, Blank(), code);
    RefuseMove(n, slot, code);
    CalmNet(n, b, ClusterOf(n.srv, slot));
    var r := Advance(n, b, ClusterOf(n.srv, slot));
    assert Make(n, Refuse(slot, code), maxRx) == r;
    assert NetInv(r);
  }

  // ---------------------------------------------------------------- runs

  /** `n` is reached from the start by the moves `ms`. */
  ghost predicate Reached(ms: seq<Move>, n: Net, maxRx: u32)
    decreases |ms|, 1
  {
    if ms == [] then n == Start()
    else exists n0 :: Follows(ms, n0, n, maxRx)
  }

  /** The last of the moves leads from `n0` to `n`. */
  ghost predicate Follows(ms: seq<Move>, n0: Net, n: Net, maxRx: u32)
    requires ms != []
    decreases |ms|, 0
  {
    && Reached(ms[..|ms| - 1], n0, maxRx)
    && Shaped(n0) && Enabled(n0, ms[|ms| - 1]) && n == Make(n0, ms[|ms| - 1], maxRx)
  }

  lemma {:induction false} ReachedInv(ms: seq<Move>, n: Net, maxRx: u32)
    requires Reached(ms, n, maxRx)
    ensures NetInv(n) && Shaped(n)
    decreases |ms|
  {
    if ms == [] {
      StartInv();
    } else {
      var n0 :| Follows(ms, n0, n, maxRx);
      ReachedInv(ms[..|ms| - 1], n0, maxRx);
      MakeInv(n0, ms[|ms| - 1], maxRx);
    }
  }

  // ---------------------------------------------------------------- NACK before ACK

  /** Everyone the latest decision of cluster `c` NACKed and who is still connected has applied
      exactly that NACK, and the server has taken its reply. */
  ghost predicate NacksApplied(n: Net, c: nat, d: nat)
    requires |n.links| == |n.srv.sessions| && d < |n.decided|
  {
    forall p :: InCluster(n.srv, c, p) && n.links[p].id in n.decided[d].nacked ==>
      && n.links[p].down == [] && n.links[p].up == []
      && n.links[p].held.Some? && n.links[p].held.value.vote == Nack && n.links[p].held.value.decision == d
  }

  /** With no NACK outstanding in a cluster, its latest decision's NACKs have been applied. */
  lemma SettledNacks(n: Net, c: nat)
    requires NetInv(n) && c < |n.latest| && n.latest[c].Some? && !AnySending(n.srv, c, SendingNack)
    ensures n.latest[c].value < |n.decided| && NacksApplied(n, c, n.latest[c].value)
  {
    var d := n.latest[c].value;
    assert LatestOk(n, c);
    forall p | InCluster(n.srv, c, p) && n.links[p].id in n.decided[d].nacked
      ensures n.links[p].down == [] && n.links[p].up == []
      ensures n.links[p].held.Some? && n.links[p].held.value.vote == Nack && n.links[p].held.value.decision == d
    {
      assert LinkOk(n, p) && NackedAt(n, p);
    }
  }

  /** A move emits an ACK only of the latest decision of a cluster without outstanding NACKs. */
  lemma AckIsLatest(n: Net, mv: Move, maxRx: u32, x: Sent)
    requires NetInv(n) && Shaped(n) && Enabled(n, mv)
    requires x in Make(n, mv, maxRx).log && x !in n.log && x.note.vote == Ack
    ensures var r := Make(n, mv, maxRx);
            && x.cluster < |r.latest| && r.latest[x.cluster] == Some(x.note.decision)
            && !AnySending(r.srv, x.cluster, SendingNack)
  {
    if mv.Deliver? {
      DeliveredAck(n, mv, maxRx, x);
    } else if mv.Reply? {
      RepliedAck(n, mv, maxRx, x);
    } else if mv.End? {
      EndedAck(n, mv.slot, mv.evict, maxRx, x);
    } else {
      SilentMove(n, mv, maxRx);
    }
  }

  lemma SilentMove(n: Net, mv: Move, maxRx: u32)
    requires NetInv(n) && Shaped(n) && Enabled(n, mv) && (mv.Connect? || mv.Apply? || mv.Touch? || mv.Refuse?)
    ensures Make(n, mv, maxRx).log == n.log
  {
    match mv
    case Connect(now) =>
      ConnectMove(n, now);
      CalmLinks(n, Connected(n.srv, now), 0);
    case Apply(slot) =>
    case Touch(slot, deadline) =>
      var s' := n.srv.sessions[slot].(deadline := deadline);
      TouchMove(n, slot, s');
      CalmLinks(n, SetSession(n.srv, slot, s'), ClusterOf(n.srv, slot));
    case Refuse(slot, code) =>
      RefuseMove(n, slot, code);
      CalmLinks(n, SendErr(n.srv, slot, Blank(), code), ClusterOf(n.srv, slot));
  }

  lemma DeliveredAck(n: Net, mv: Move, maxRx: u32, x: Sent)
    requires NetInv(n) && Shaped(n) && mv.Deliver? && Enabled(n, mv)
    requires x in Make(n, mv, maxRx).log && x !in n.log && x.note.vote == Ack
    ensures var r := Make(n, mv, maxRx);
            && x.cluster < |r.latest| && r.latest[x.cluster] == Some(x.note.decision)
            && !AnySending(r.srv, x.cluster, SendingNack)
  {
    var b := HandleMsg(n.srv, mv.slot, mv.kind, mv.msg, mv.frame, mv.now, maxRx);
    HandleMsgInv(n.srv, mv.slot, mv.kind, mv.msg, mv.frame, mv.now, maxRx, true);
    var tv := MsgEffect(n.srv, mv.slot, mv.kind, mv.msg, mv.frame, mv.now, maxRx);
    if ValidTrigger(n.srv, tv) && Decides(n.srv, tv, Selection.Winner(n.srv, tv), b) {
      DecisionAck(n, tv, Selection.Winner(n.srv, tv), b, x);
    } else {
      CalmLinks(n, b, ClusterOf(n.srv, mv.slot));
    }
  }

  lemma RepliedAck(n: Net, mv: Move, maxRx: u32, x: Sent)
    requires NetInv(n) && Shaped(n) && mv.Reply? && Enabled(n, mv)
    requires x in Make(n, mv, maxRx).log && x !in n.log && x.note.vote == Ack
    ensures var r := Make(n, mv, maxRx);
            && x.cluster < |r.latest| && r.latest[x.cluster] == Some(x.note.decision)
            && !AnySending(r.srv, x.cluster, SendingNack)
  {
    if InFlight(n.links[mv.slot]) == 1 {
      SettlingMove(n, mv.slot, mv.msg, mv.frame, mv.now, maxRx);
      SettlingAck(n, Acknowledge(n.srv, mv.slot), mv.slot, x);
    } else {
      StaleMove(n, mv.slot, mv.msg, mv.frame, mv.now, maxRx);
    }
  }

  lemma EndedAck(n: Net, slot: nat, evict: bool, maxRx: u32, x: Sent)
    requires NetInv(n) && Shaped(n) && Open(n.srv, slot)
    requires x in Make(n, End(slot, evict), maxRx).log && x !in n.log && x.note.vote == Ack
    ensures var r := Make(n, End(slot, evict), maxRx);
            && x.cluster < |r.latest| && r.latest[x.cluster] == Some(x.note.decision)
            && !AnySending(r.srv, x.cluster, SendingNack)
  {
    var b := Ended(n.srv, slot, evict);
    EndedInv(n.srv, slot, evict);
    var tv := StoredTrigger(n.srv, slot, true);
    if n.srv.sessions[slot].phase == Active && Stability.Stable(n.srv, tv) {
      CloseDecides(n.srv, slot, evict);
      DecisionAck(n, tv, Selection.Winner(n.srv, tv), b, x);
    } else {
      CloseIsCalm(n.srv, slot, evict);
      QuietAdvance(n, b, ClusterOf(n.srv, slot));
    }
  }

  /** A new vote-info of a decision is an ACK only if everyone in the cluster won. */
  lemma DecisionAck(n: Net, tv: Trigger, w: Option<NodeList>, b: State, x: Sent)
    requires Turn(n, tv, w, b) && Book(b)
    requires x in Advance(n, b, Site(n, tv)).log && x !in n.log && x.note.vote == Ack
    ensures var r := Advance(n, b, Site(n, tv));
            && x.cluster == Site(n, tv) && r.latest[x.cluster] == Some(x.note.decision)
            && !AnySending(b, x.cluster, SendingNack)
  {
    var c := Site(n, tv);
    DecidesRecorded(n, tv, w, b);
    var i, k := FreshEntry(n, b, c, x);
    AckedAtOnce(n, tv, w, b, i, k);
  }

  lemma AckedAtOnce(n: Net, tv: Trigger, w: Option<NodeList>, b: State, i: nat, k: nat)
    requires Turn(n, tv, w, b) && Book(b) && i < |n.links| && k < |NewVotes(n.srv, b, i)|
    requires NewVotes(n.srv, b, i)[k].vote == Ack
    ensures b.clusters[Site(n, tv)].used && !AnySending(b, Site(n, tv), SendingNack)
  {
    var c := Site(n, tv);
    assert Elsewhere(n.srv, b, c, i) && DecidedAt(n.srv, tv, w, b, i);
    assert MemberOk(b, i);
    forall p | InCluster(b, c, p)
      ensures b.sessions[p].poll.ff != SendingNack
    {
      assert DecidedAt(n.srv, tv, w, b, p);
      assert Wins(w, n.srv.sessions[p].nodeId);
    }
  }

  lemma SettlingAck(n: Net, b: State, slot: nat, x: Sent)
    requires NetInv(n) && Settles(n, b, slot)
    requires x in SettledNet(n, b, slot).log && x !in n.log && x.note.vote == Ack
    ensures var r := SettledNet(n, b, slot);
            && x.cluster < |r.latest| && r.latest[x.cluster] == Some(x.note.decision)
            && !AnySending(b, x.cluster, SendingNack)
  {
    var c := n.srv.sessions[slot].cluster;
    var r := SettledNet(n, b, slot);
    SettledIsSettledBy(n, b, slot);
    var i, k := SettledEntry(n, b, slot, x);
    SettlesNewEntry(n, b, slot, r, i, k);
    assert LatestOk(n, c);
    SettlesLatest(n, b, slot, r, c);
    ReleasedNacks(n.srv, b, slot);
  }

  /** When a reply releases the ACKs no NACK is outstanding. */
  lemma ReleasedNacks(a: State, b: State, slot: nat)
    requires slot < |a.sessions| && Acks(a, b, slot) && Releases(a, slot)
    ensures !AnySending(b, a.sessions[slot].cluster, SendingNack)
  {
    var c := a.sessions[slot].cluster;
    forall p | InCluster(b, c, p)
      ensures b.sessions[p].poll.ff != SendingNack
    {
      assert AckAt(a, b, slot, p);
      assert InCluster(a, c, p);
    }
  }

  /** NACK before ACK: whenever a move of a run emits an ACK, every still-connected client NACKed by
      the same decision has applied that very NACK and replied to it. */
  lemma NackBeforeAck(ms: seq<Move>, n: Net, mv: Move, maxRx: u32, x: Sent)
    requires Reached(ms, n, maxRx) && Shaped(n) && Enabled(n, mv)
    requires x in Make(n, mv, maxRx).log && x !in n.log && x.note.vote == Ack
    ensures var r := Make(n, mv, maxRx);
            x.note.decision < |r.decided| && NacksApplied(r, x.cluster, x.note.decision)
  {
    ReachedInv(ms, n, maxRx);
    MakeInv(n, mv, maxRx);
    AckIsLatest(n, mv, maxRx, x);
    SettledNacks(Make(n, mv, maxRx), x.cluster);
  }

  // ---------------------------------------------------------------- one side holds the ACKs

  predicate HoldsAck(l: Link) {
    l.held.Some? && l.held.value.vote == Ack
  }

  /** Both sides ACKed is unreachable: of two clients of a cluster that apply an ACK at the same
      time, the one with the older ACK is a winner of the decision behind the newer one. */
  lemma OneSideHoldsAcks(ms: seq<Move>, n: Net, maxRx: u32, c: nat, p: nat, q: nat)
    requires Reached(ms, n, maxRx)
    requires InCluster(n.srv, c, p) && InCluster(n.srv, c, q) && p < |n.links| && q < |n.links|
    requires HoldsAck(n.links[p]) && HoldsAck(n.links[q])
    requires n.links[p].held.value.decision <= n.links[q].held.value.decision
    ensures var d := n.links[q].held.value.decision;
            && d < |n.decided| && n.decided[d].cluster == c
            && n.srv.sessions[p].nodeId in n.decided[d].winners && n.srv.sessions[q].nodeId in n.decided[d].winners
  {
    ReachedInv(ms, n, maxRx);
    var x := n.links[q].held.value;
    assert Logged(n, q) && Carries(n.links[q], x);
    assert EntryOk(n, Sent(n.links[q].id, n.srv.sessions[q].nodeId, c, x));
  }

  /** All ACKs ever sent for one decision, at once or deferred, carry one and the same ring and go
      to winners of that decision. */
  lemma OneRingPerDecision(ms: seq<Move>, n: Net, maxRx: u32, x: Sent, y: Sent)
    requires Reached(ms, n, maxRx)
    requires x in n.log && y in n.log && x.note.vote == Ack && y.note.vote == Ack
    requires x.note.decision == y.note.decision
    ensures x.note.ring == y.note.ring && x.cluster == y.cluster
    ensures x.note.decision < |n.decided|
    ensures x.node in n.decided[x.note.decision].winners && y.node in n.decided[x.note.decision].winners
  {
    ReachedInv(ms, n, maxRx);
    assert EntryOk(n, x) && EntryOk(n, y) && OneRing(n.decided[x.note.decision]);
  }

  // ---------------------------------------------------------------- the rings of the vote-infos

  /** The vote-info was sent to slot `i`, with the ring its session has stored by then. */
  predicate SentTo(n: Net, r: Net, i: nat, x: Sent) {
    && i < |n.links| && i < |r.srv.sessions| && x.link == n.links[i].id
    && x.note.ring == r.srv.sessions[i].ring && x.node == r.srv.sessions[i].nodeId
  }

  /** Every vote-info, NACK or ACK, goes out with the ring its recipient has stored by then. */
  lemma VoteCarriesRing(n: Net, mv: Move, maxRx: u32, x: Sent) returns (i: nat)
    requires NetInv(n) && Shaped(n) && Enabled(n, mv)
    requires x in Make(n, mv, maxRx).log && x !in n.log
    ensures SentTo(n, Make(n, mv, maxRx), i, x)
  {
    i := 0;
    if mv.Deliver? {
      var k;
      i, k := FreshEntry(n, Served(n.srv, mv, maxRx), ClusterOf(n.srv, mv.slot), x);
      MsgRings(n.srv, mv.slot, mv.kind, mv.msg, mv.frame, mv.now, maxRx, i);
    } else if mv.Reply? {
      var k;
      i, k := FreshEntry(TakeReply(n, mv.slot), Served(n.srv, mv, maxRx), ClusterOf(n.srv, mv.slot), x);
      MsgRings(n.srv, mv.slot, VOTE_INFO_REPLY, mv.msg, mv.frame, mv.now, maxRx, i);
    } else if mv.End? {
      i := EndedCarriesRing(n, mv.slot, mv.evict, x);
    } else {
      SilentMove(n, mv, maxRx);
      assert false;
    }
  }

  lemma EndedCarriesRing(n: Net, slot: nat, evict: bool, x: Sent) returns (i: nat)
    requires Shaped(n) && Open(n.srv, slot) && Fits(n, Ended(n.srv, slot, evict))
    requires x in Advance(n, Ended(n.srv, slot, evict), ClusterOf(n.srv, slot)).log && x !in n.log
    ensures SentTo(n, Advance(n, Ended(n.srv, slot, evict), ClusterOf(n.srv, slot)), i, x)
  {
    var k;
    i, k := FreshEntry(n, Ended(n.srv, slot, evict), ClusterOf(n.srv, slot), x);
    EndRings(n.srv, slot, evict, i);
  }

  /** Over every run: a NACK carries the ring its recipient had at the decision, and no decision NACKs
      a client with two rings. */
  lemma NackCarriesRing(ms: seq<Move>, n: Net, maxRx: u32, x: Sent, y: Sent)
    requires Reached(ms, n, maxRx) && x in n.log && y in n.log && x.note.vote == Nack && y.note.vote == Nack
    requires x.note.decision == y.note.decision && x.link == y.link
    ensures x.note.decision < |n.decided| && (x.link, x.note.ring) in n.decided[x.note.decision].told
    ensures x.note.ring == y.note.ring
  {
    ReachedInv(ms, n, maxRx);
    assert EntryOk(n, x) && EntryOk(n, y) && OneTold(n.decided[x.note.decision]);
  }
}
