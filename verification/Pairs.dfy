/** A server with a few peers, step by step: the handshake, their lists, and the decisions those set
    off. Deadlines are left out of the picture. */
module Pairs {
  import opened Wire
  import opened Msg
  import opened ServerState
  import opened Stability
  import opened Selection
  import opened Votes
  import opened Protocol
  import opened Events
  import opened Requests
  import opened TwoSides
  import Outcomes

  const NAME: seq<byte> := [113]
  const BEAT: u32 := 8000

  function Plain(s: Session): (r: Session) {
    s.(deadline := 0)
  }

  /** The first slots hold the sessions `ss`, the others are free, and only cluster record 0 may be in
      use. */
  ghost predicate Cast(st: State, ss: seq<Session>, cl: Cluster) {
    && |ss| <= MAX_CLIENTS == |st.sessions| && st.clusters == [cl, NoCluster]
    && (forall i :: 0 <= i < |ss| ==> Plain(st.sessions[i]) == ss[i])
    && (forall i :: |ss| <= i < MAX_CLIENTS ==> st.sessions[i] == FreshSession)
  }

  lemma CastSame(st: State, ss: seq<Session>, cl: Cluster, ss': seq<Session>)
    requires Cast(st, ss, cl) && ss == ss'
    ensures Cast(st, ss', cl)
  {
  }

  // ---------------------------------------------------------------- the handshake

  const Caller: Session := FreshSession.(phase := WaitPreinit)

  const Greeted: Session := FreshSession.(phase := WaitInit, clusterName := NAME)

  function Enrolment(id: u32, tb: TieBreaker): (r: Request) {
    Enrol(id, RingId(id, 0), BEAT, tb)
  }

  function Member(id: u32, tb: TieBreaker): (s: Session) {
    FreshSession.(phase := Active, clusterName := NAME, cluster := 0, nodeId := id, ring := RingId(id, 0),
                  heartbeat := BEAT, tieBreaker := Trimmed(tb))
  }

  function Club(n: int): (cl: Cluster) {
    NoCluster.(used := true, name := NAME, members := n)
  }

  lemma CastStart()
    ensures Cast(Initial(), [FreshSession, FreshSession], NoCluster)
  {
  }

  lemma CastConnect(st: State, ss: seq<Session>, slot: nat, now: nat)
    requires Cast(st, ss, NoCluster) && slot < |ss| && ss[slot].phase == Free
    requires forall i :: 0 <= i < slot ==> ss[i].phase != Free
    ensures FreeSlot(st, 0) == Some(slot) && Cast(Connected(st, now), ss[slot := Caller], NoCluster)
  {
    FirstFree(st, ss, slot, 0);
    assert Plain(st.sessions[slot]) == ss[slot];
  }

  lemma {:induction false} FirstFree(st: State, ss: seq<Session>, slot: nat, i: nat)
    requires Cast(st, ss, NoCluster) && i <= slot < |ss| && ss[slot].phase == Free
    requires forall k :: 0 <= k < slot ==> ss[k].phase != Free
    ensures FreeSlot(st, i) == Some(slot)
    decreases slot - i
  {
    assert Plain(st.sessions[i]) == ss[i];
    if i < slot {
      FirstFree(st, ss, slot, i + 1);
    }
  }

  lemma CastHello(st: State, ss: seq<Session>, slot: nat, f: seq<byte>, now: nat, maxRx: u32)
    requires Cast(st, ss, NoCluster) && Indexed(st) && slot < |ss| && ss[slot] == Caller
    ensures Open(st, slot)
    ensures var b := HandleMsg(st, slot, PREINIT, Said(Hello(NAME)), f, now, maxRx);
            Cast(b, ss[slot := Greeted], NoCluster) && b.decisions == st.decisions
  {
    assert Plain(st.sessions[slot]) == Caller;
  }

  /** The cluster record with `n` members. */
  function Roll(n: nat): (cl: Cluster) {
    if n == 0 then NoCluster else Club(n)
  }

  /** The sessions in `ss` leave room for node `id`. */
  predicate Fit(ss: seq<Session>, id: u32, tb: TieBreaker) {
    forall i :: 0 <= i < |ss| && ss[i].phase == Active ==>
      ss[i].nodeId != id && ss[i].algorithm == FFSPLIT && SameTieBreaker(Trimmed(tb), ss[i].tieBreaker)
  }

  lemma Enrolled(st: State, ss: seq<Session>, n: nat, slot: nat, id: u32, tb: TieBreaker, f: seq<byte>, now: nat,
                 maxRx: u32)
    requires Cast(st, ss, Roll(n)) && Indexed(st) && slot < |ss| && ss[slot] == Greeted && Fit(ss, id, tb)
    ensures Open(st, slot)
    ensures var b := HandleMsg(st, slot, INIT, Said(Enrolment(id, tb)), f, now, maxRx);
            Cast(b, ss[slot := Member(id, tb)], Club(n + 1)) && b.decisions == st.decisions
  {
    var m := Said(Enrolment(id, tb));
    assert Plain(st.sessions[slot]) == Greeted;
    var (s, code) := InitFields(st.sessions[slot], m);
    NothingAgainst(st, ss, Roll(n), slot, id, tb, s);
    ClubFound(st.clusters, n);
  }

  lemma ClubFound(cs: seq<Cluster>, n: nat)
    requires cs == [Roll(n), NoCluster]
    ensures FindOrCreate(cs, NAME) == (Some(0), [Club(n), NoCluster])
  {
    if n == 0 {
      assert ClusterNamed(cs, NAME, 0) == None;
      assert UnusedCluster(cs, 0) == Some(0);
      assert cs[0 := Club(0)] == [Club(0), NoCluster];
    } else {
      assert ClusterNamed(cs, NAME, 0) == Some(0);
    }
  }

  lemma NothingAgainst(st: State, ss: seq<Session>, cl: Cluster, slot: nat, id: u32, tb: TieBreaker, s: Session)
    requires Cast(st, ss, cl) && slot < |ss| && Fit(ss, id, tb)
    requires s.nodeId == id && s.algorithm == FFSPLIT && s.tieBreaker == Trimmed(tb)
    ensures FirstConflict(st, slot, s, 0) == NoError
  {
    NoConflict(st, slot, s, 0);
    forall k | 0 <= k < |st.sessions|
      ensures Conflict(st, slot, s, k) == NoError
    {
      if k < |ss| {
        assert Plain(st.sessions[k]) == ss[k];
      }
    }
  }

  // ---------------------------------------------------------------- lists that decide nothing

  /** The session in `slot` is an active member. */
  predicate Joined(ss: seq<Session>, slot: nat) {
    slot < |ss| && ss[slot].phase == Active && ss[slot].cluster == 0
  }

  /** A report that calls for no decision is only stored. */
  lemma ReportStored(st: State, ss: seq<Session>, cl: Cluster, slot: nat, t: u16, m: Decoded, f: seq<byte>, now: nat,
                     maxRx: u32)
    requires Cast(st, ss, cl) && Indexed(st) && Joined(ss, slot) && Outcomes.Reporting(ss[slot], t, m)
    requires !Outcomes.Decisive(Outcomes.Revised(ss[slot], t, m), t, m)
    ensures Open(st, slot)
    ensures var b := HandleMsg(st, slot, t, m, f, now, maxRx);
            Cast(b, ss[slot := Outcomes.Revised(ss[slot], t, m)], cl) && b.decisions == st.decisions
  {
    assert Plain(st.sessions[slot]) == ss[slot];
    Outcomes.ReportRuns(st, slot, t, m, f, now, maxRx);
  }

  function Reported(s: Session, ring: RingId, l: NodeList): (r: Session) {
    s.(membership := l, ring := ring, heuristics := HeurUndefined)
  }

  // ---------------------------------------------------------------- memberships that run the algorithm

  /** The view a membership report of `slot` gives the algorithm. */
  function ReportView(st: State, slot: nat, ring: RingId, l: NodeList): (tv: Trigger)
    requires slot < |st.sessions|
  {
    Trigger(slot, false, ring, st.sessions[slot].config, l, HeurUndefined)
  }

  /** With a configuration in place a membership report runs the algorithm and is then stored. */
  lemma ReportRuns(st: State, slot: nat, ring: RingId, l: NodeList, f: seq<byte>, now: nat, maxRx: u32)
    requires Open(st, slot) && Indexed(st) && st.sessions[slot].phase == Active
    requires Has(l, st.sessions[slot].nodeId) && st.sessions[slot].config != []
    ensures var tv := ReportView(st, slot, ring, l);
            && ValidTrigger(st, tv) && |FfsplitDo(st, tv).0.sessions| == |st.sessions|
            && var (st1, v) := FfsplitDo(st, tv);
               HandleMsg(st, slot, NODE_LIST, Said(Report(1, Membership, ring, l)), f, now, maxRx)
               == Answer(st1, slot, Answered(Reported(st1.sessions[slot], ring, l), v),
                         NodeListReply(1, Membership, ring, v))
  {
    FfsplitVoteStep(st, ReportView(st, slot, ring, l));
  }

  /** Storing the reported membership. */
  lemma AnswerCast(st: State, ss: seq<Session>, cl: Cluster, slot: nat, ring: RingId, l: NodeList, v: Vote,
                   frame: Reply)
    requires Cast(st, ss, cl) && slot < |ss| && v != Ack && v != Nack
    ensures Cast(Answer(st, slot, Answered(Reported(st.sessions[slot], ring, l), v), frame),
                ss[slot := Reported(ss[slot], ring, l)], cl)
  {
    assert Plain(st.sessions[slot]) == ss[slot];
  }

  lemma WaitingCast(st: State, ss: seq<Session>, cl: Cluster)
    requires Cast(st, ss, cl)
    ensures Cast(WithState(st, 0, WaitingForStable), ss, cl.(state := WaitingForStable))
  {
  }

  /** Nothing is decided on an unstable view. */
  lemma ReportUnstable(st: State, ss: seq<Session>, cl: Cluster, slot: nat, ring: RingId, l: NodeList, f: seq<byte>,
                       now: nat, maxRx: u32)
    requires Cast(st, ss, cl) && Indexed(st) && Joined(ss, slot) && Has(l, ss[slot].nodeId) && ss[slot].config != []
    requires ValidTrigger(st, ReportView(st, slot, ring, l)) && !Stable(st, ReportView(st, slot, ring, l))
    ensures Open(st, slot)
    ensures var b := HandleMsg(st, slot, NODE_LIST, Said(Report(1, Membership, ring, l)), f, now, maxRx);
            && Cast(b, ss[slot := Reported(ss[slot], ring, l)], cl.(state := WaitingForStable))
            && b.decisions == st.decisions
  {
    assert Plain(st.sessions[slot]) == ss[slot];
    ReportRuns(st, slot, ring, l, f, now, maxRx);
    var st1 := WithState(st, 0, WaitingForStable);
    WaitingCast(st, ss, cl);
    assert FfsplitDo(st, ReportView(st, slot, ring, l)) == (st1, WaitForReply);
    AnswerCast(st1, ss, cl.(state := WaitingForStable), slot, ring, l, WaitForReply,
              NodeListReply(1, Membership, ring, WaitForReply));
  }

  function Acknowledged(s: Session): (r: Session) {
    s.(poll := Poll(SendingAck, Succ32(s.poll.voteSeq), Ack))
  }

  /** A decision everybody wins sends every member its ACK. */
  lemma ReportWins(st: State, ss: seq<Session>, cl: Cluster, slot: nat, ring: RingId, l: NodeList, f: seq<byte>,
                   now: nat, maxRx: u32)
    requires Cast(st, ss, cl) && Indexed(st) && Joined(ss, slot) && Has(l, ss[slot].nodeId) && ss[slot].config != []
    requires |ss| == 2 && Joined(ss, 0) && Joined(ss, 1) && ValidTrigger(st, ReportView(st, slot, ring, l))
    requires United(st, ReportView(st, slot, ring, l), l)
    ensures Open(st, slot)
    ensures var b := HandleMsg(st, slot, NODE_LIST, Said(Report(1, Membership, ring, l)), f, now, maxRx);
            var ss1 := [Acknowledged(ss[0]), Acknowledged(ss[1])];
            Cast(b, ss1[slot := Reported(ss1[slot], ring, l)], cl.(quorate := l, state := SendingAcks))
  {
    assert Plain(st.sessions[0]) == ss[0] && Plain(st.sessions[1]) == ss[1];
    var tv := ReportView(st, slot, ring, l);
    ReportRuns(st, slot, ring, l, f, now, maxRx);
    var r := UnitedDecides(st, ss, cl, tv, l);
    AnswerCast(r.0, [Acknowledged(ss[0]), Acknowledged(ss[1])], cl.(quorate := l, state := SendingAcks), slot, ring, l,
              NoChange, NodeListReply(1, Membership, ring, NoChange));
  }

  lemma UnitedDecides(st: State, ss: seq<Session>, cl: Cluster, tv: Trigger, l: NodeList) returns (r: (State, Vote))
    requires Cast(st, ss, cl) && |ss| == 2 && Joined(ss, 0) && Joined(ss, 1) && ValidTrigger(st, tv) && !tv.leaving
    requires tv.slot < 2
    requires United(st, tv, l)
    ensures r == FfsplitDo(st, tv) && r.1 == NoChange
    ensures Cast(r.0, [Acknowledged(ss[0]), Acknowledged(ss[1])], cl.(quorate := l, state := SendingAcks))
  {
    r := FfsplitDo(st, tv);
    UnitedWins(st, tv, l);
    DecisionEffect(st, tv, Some(l));
    AllAcknowledged(st, ss, cl, tv, l, r.0);
  }

  lemma AllAcknowledged(st: State, ss: seq<Session>, cl: Cluster, tv: Trigger, l: NodeList, st1: State)
    requires Cast(st, ss, cl) && |ss| == 2 && Joined(ss, 0) && Joined(ss, 1) && ValidTrigger(st, tv) && !tv.leaving
    requires tv.slot < 2
    requires United(st, tv, l) && DecisionShape(st, tv, Some(l), st1)
    ensures Cast(st1, [Acknowledged(ss[0]), Acknowledged(ss[1])], cl.(quorate := l, state := SendingAcks))
  {
    assert Plain(st.sessions[0]) == ss[0] && Plain(st.sessions[1]) == ss[1];
    assert Takes(st, tv, 0) && Takes(st, tv, 1) && !AnyLoser(st, tv, Some(l));
    assert Wins(Some(l), st.sessions[0].nodeId) && AnyWinner(st, tv, Some(l));
    forall i | 0 <= i < MAX_CLIENTS
      ensures st1.sessions[i] == Decided(st, tv, Some(l), i)
    {
    }
  }

  // ---------------------------------------------------------------- a configuration that runs the algorithm

  /** A changed configuration that says what is stored already decides on the stored view. */
  lemma ConfigRuns(st: State, slot: nat, ring: RingId, cfg: NodeList, f: seq<byte>, now: nat, maxRx: u32)
    requires Open(st, slot) && Indexed(st) && st.sessions[slot].phase == Active && st.sessions[slot].membership != []
    requires Has(cfg, st.sessions[slot].nodeId) && st.sessions[slot].config == cfg
    ensures var tv := StoredTrigger(st, slot, false);
            && ValidTrigger(st, tv)
            && HandleMsg(st, slot, NODE_LIST, Said(Report(1, ChangedConfig, ring, cfg)), f, now, maxRx).clusters
               == FfsplitDo(st, tv).0.clusters
  {
    var m := Said(Report(1, ChangedConfig, ring, cfg));
    Outcomes.ReportRuns(st, slot, 10, m, f, now, maxRx);
    assert Outcomes.Revised(st.sessions[slot], 10, m) == st.sessions[slot];
  }

  lemma QuorateIsWinner(st: State, tv: Trigger, l: NodeList)
    requires ValidTrigger(st, tv) && Stable(st, tv) && Winner(st, tv) == Some(l)
    ensures var c := TriggerCluster(st, tv);
            c < |FfsplitDo(st, tv).0.clusters| && FfsplitDo(st, tv).0.clusters[c].quorate == l
  {
    DecisionEffect(st, tv, Some(l));
  }

  /** Node `id`, alone in the configuration `cfg`. */
  function Loner(id: u32, tb: TieBreaker, cfg: NodeList): (s: Session) {
    Reported(Member(id, tb), RingId(id, 1), Only(id)).(config := cfg)
  }

  lemma LonersAreSides(st: State, cl: Cluster, x: u32, y: u32, tb: TieBreaker)
    requires Cast(st, [Loner(x, tb, Both(x, y)), Loner(y, tb, Both(x, y))], cl) && x != y
    ensures Sides(st, StoredTrigger(st, 0, false), x, y, Trimmed(tb))
  {
    assert Plain(st.sessions[0]) == Loner(x, tb, Both(x, y)) && Plain(st.sessions[1]) == Loner(y, tb, Both(x, y));
  }
}
