/** Runs on bytes in which two peers arrive: a peer that then takes the other's node id, and a tie
    that goes to whoever connected first. */
module Arrivals {
  import opened Wire
  import opened Msg
  import opened Codec
  import T = Tlv
  import opened ServerState
  import opened Stability
  import opened Selection
  import opened Votes
  import opened Protocol
  import opened Events
  import opened Invariants
  import opened Renaming
  import opened Runs
  import opened Framing
  import opened SlotOrder
  import opened Requests
  import opened TwoSides
  import opened Pairs
  import Outcomes

  /** A payload limit that no request of these runs exceeds. */
  const ROOM: u32 := 0x1000

  // ---------------------------------------------------------------- one request at a time

  lemma RequestWhole(r: Request, maxRx: u32)
    requires Modest(r) && maxRx >= ROOM
    ensures Whole(Decodes, Bytes(r), maxRx) && Split(Bytes(r), maxRx) == Cut([Bytes(r)], [], None)
  {
    RequestRoundTrip(r);
    SplitCons(Decodes, Bytes(r), [], maxRx);
    assert Bytes(r) + [] == Bytes(r);
    assert [Bytes(r)] + [] == [Bytes(r)];
  }

  lemma HandledOne(st: State, slot: nat, f: seq<byte>, t: u16, m: Decoded, now: nat, maxRx: u32)
    requires Open(st, slot) && Indexed(st) && Whole(Decodes, f, maxRx) && T.Get16(f) == t && Message(f) == Some(m)
    ensures AllWhole(Decodes, [f], maxRx)
    ensures Handled(st, slot, [f], now, maxRx) == HandleMsg(st, slot, t, m, f, now, maxRx)
  {
    var rest: seq<seq<byte>> := [];
    assert [f][1..] == rest;
  }

  lemma FedOne(h: Host, slot: nat, f: seq<byte>, t: u16, m: Decoded, now: nat, maxRx: u32)
    requires Ready(h) && OpenSlot(h, slot) && h.rx[slot] == []
    requires Whole(Decodes, f, maxRx) && T.Get16(f) == t && Message(f) == Some(m)
    ensures AllWhole(Decodes, [f], maxRx)
    ensures Fed(h, slot, Cut([f], [], None), now, maxRx)
            == h.(core := HandleMsg(Renewed(h.core, slot, now), slot, t, m, f, now, maxRx))
  {
    HandledOne(Renewed(h.core, slot, now), slot, f, t, m, now, maxRx);
    assert h.rx[slot := []] == h.rx;
  }

  lemma FrameArrives(h: Host, slot: nat, f: seq<byte>, t: u16, m: Decoded, now: nat, maxRx: u32)
    requires Idle(h, maxRx) && OpenSlot(h, slot) && h.rx[slot] == []
    requires Whole(Decodes, f, maxRx) && T.Get16(f) == t && Message(f) == Some(m)
    requires Split(f, maxRx) == Cut([f], [], None)
    ensures OnData(h, slot, f, now, maxRx)
            == h.(core := HandleMsg(Renewed(h.core, slot, now), slot, t, m, f, now, maxRx))
  {
    FedOne(h, slot, f, t, m, now, maxRx);
    assert h.rx[slot] + f == f;
    DataEffect(h, slot, f, now, maxRx);
  }

  /** A request that arrives in one piece is handled at once. */
  lemma Arrives(h: Host, slot: nat, r: Request, now: nat, maxRx: u32)
    requires Idle(h, maxRx) && OpenSlot(h, slot) && h.rx[slot] == [] && Modest(r) && maxRx >= ROOM
    ensures Step(h, Data(slot, Bytes(r), now), maxRx)
            == h.(core := HandleMsg(Renewed(h.core, slot, now), slot, RequestType(r), Said(r), Bytes(r), now, maxRx))
  {
    RequestWhole(r, maxRx);
    RequestRoundTrip(r);
    FrameArrives(h, slot, Bytes(r), RequestType(r), Said(r), now, maxRx);
  }

  lemma CleanOne(h: Host, slot: nat, f: seq<byte>, now: nat, maxRx: u32)
    requires Ready(h) && OpenSlot(h, slot) && h.processing && h.rx[slot] == f
    requires |f| >= HEADER_LEN && FrameLen(f) == |f| && CleanFrame(h.core, slot, f)
    ensures CleanLoop(h, slot, now, maxRx)
  {
    assert f[..FrameLen(f)] == f;
    if !h.closing[slot] && FrameLen(f) <= HEADER_LEN + maxRx {
      assert CleanLoop(ConsumeFrame(h, slot, now, maxRx), slot, now, maxRx);
    }
  }

  /** A request other than an INIT on an active session is no harmful INIT. */
  lemma ArrivesClean(h: Host, slot: nat, r: Request, now: nat, maxRx: u32)
    requires Ready(h) && OpenSlot(h, slot) && h.rx[slot] == [] && Modest(r)
    requires r.Enrol? ==> h.core.sessions[slot].phase != Active
    ensures CleanInput(h, Data(slot, Bytes(r), now), maxRx)
  {
    var f := Bytes(r);
    RequestRoundTrip(r);
    var h1 := Heard(h, slot, f, now);
    assert h1.rx[slot] == f;
    CleanOne(h1, slot, f, now, maxRx);
  }

  /** After the inputs `es`, which hold no harmful INIT, the server has the sessions `ss`. */
  ghost predicate Scene(es: seq<Input>, ss: seq<Session>, cl: Cluster, maxRx: u32) {
    var h := Run(es, maxRx);
    CleanRun(es, maxRx) && Cast(h.core, ss, cl) && forall i :: 0 <= i < |ss| ==> h.rx[i] == []
  }

  lemma RenewedCast(st: State, ss: seq<Session>, cl: Cluster, slot: nat, now: nat)
    requires Cast(st, ss, cl) && Open(st, slot)
    ensures Cast(Renewed(st, slot, now), ss, cl)
  {
  }

  function Bytewise(slot: nat, r: Request): (e: Input)
    requires Modest(r)
  {
    Data(slot, Bytes(r), 0)
  }

  /** One more request of an open connection with nothing left in its buffer. */
  lemma NextArrives(es: seq<Input>, slot: nat, r: Request, maxRx: u32)
    requires Modest(r) && maxRx >= ROOM && Open(Run(es, maxRx).core, slot) && Run(es, maxRx).rx[slot] == []
    ensures var h := Run(es, maxRx);
            && Indexed(Renewed(h.core, slot, 0)) && Open(Renewed(h.core, slot, 0), slot)
            && Run(es + [Bytewise(slot, r)], maxRx)
               == h.(core := HandleMsg(Renewed(h.core, slot, 0), slot, RequestType(r), Said(r), Bytes(r), 0, maxRx))
  {
    RunInv(es, maxRx);
    RunMore(es, Bytewise(slot, r), maxRx);
    Arrives(Run(es, maxRx), slot, r, 0, maxRx);
  }

  /** One more request: the protocol state afterwards. */
  lemma SceneStep(es: seq<Input>, ss: seq<Session>, cl: Cluster, slot: nat, r: Request, maxRx: u32) returns (st: State)
    requires Scene(es, ss, cl, maxRx) && slot < |ss| && ss[slot].phase != Free && Modest(r) && maxRx >= ROOM
    ensures st == Renewed(Run(es, maxRx).core, slot, 0) && Cast(st, ss, cl) && Open(st, slot) && Indexed(st)
    ensures var h := Run(es + [Bytewise(slot, r)], maxRx);
            && h.core == HandleMsg(st, slot, RequestType(r), Said(r), Bytes(r), 0, maxRx)
            && forall i :: 0 <= i < |ss| ==> h.rx[i] == []
    ensures (r.Enrol? ==> ss[slot].phase != Active) ==> CleanRun(es + [Bytewise(slot, r)], maxRx)
  {
    var h := Run(es, maxRx);
    assert Plain(h.core.sessions[slot]) == ss[slot];
    NextArrives(es, slot, r, maxRx);
    if r.Enrol? ==> ss[slot].phase != Active {
      StillClean(es, slot, r, maxRx);
    }
    st := Renewed(h.core, slot, 0);
    RenewedCast(h.core, ss, cl, slot, 0);
  }

  lemma StillClean(es: seq<Input>, slot: nat, r: Request, maxRx: u32)
    requires CleanRun(es, maxRx) && OpenSlot(Run(es, maxRx), slot) && Run(es, maxRx).rx[slot] == [] && Modest(r)
    requires r.Enrol? ==> Run(es, maxRx).core.sessions[slot].phase != Active
    ensures CleanRun(es + [Bytewise(slot, r)], maxRx)
  {
    ArrivesClean(Run(es, maxRx), slot, r, 0, maxRx);
    assert (es + [Bytewise(slot, r)])[..|es|] == es;
  }

  lemma SceneConnect(es: seq<Input>, ss: seq<Session>, slot: nat, maxRx: u32)
    requires Scene(es, ss, NoCluster, maxRx) && slot < |ss| && ss[slot].phase == Free
    requires forall i :: 0 <= i < slot ==> ss[i].phase != Free
    ensures Scene(es + [Connect(0)], ss[slot := Caller], NoCluster, maxRx)
  {
    RunMore(es, Connect(0), maxRx);
    assert (es + [Connect(0)])[..|es|] == es;
    CastConnect(Run(es, maxRx).core, ss, slot, 0);
  }

  lemma SceneHello(es: seq<Input>, ss: seq<Session>, slot: nat, ss': seq<Session>, maxRx: u32)
    requires Scene(es, ss, NoCluster, maxRx) && slot < |ss| && ss[slot] == Caller && maxRx >= ROOM
    requires ss' == ss[slot := Greeted]
    ensures Scene(es + [Bytewise(slot, Hello(NAME))], ss', NoCluster, maxRx)
  {
    var st := SceneStep(es, ss, NoCluster, slot, Hello(NAME), maxRx);
    CastHello(st, ss, slot, Bytes(Hello(NAME)), 0, maxRx);
  }

  /** Two peers connect and introduce themselves as nodes `x` and `y` of one cluster. */
  function Handshake(x: u32, y: u32, tb: TieBreaker): (es: seq<Input>) {
    Greetings() + [Bytewise(0, Enrolment(x, tb))] + [Bytewise(1, Enrolment(y, tb))]
  }

  function Greetings(): (es: seq<Input>) {
    [Connect(0)] + [Connect(0)] + [Bytewise(0, Hello(NAME))] + [Bytewise(1, Hello(NAME))]
  }

  lemma ConnectedScene(maxRx: u32)
    ensures Scene([Connect(0)] + [Connect(0)], [Caller, Caller], NoCluster, maxRx)
  {
    CastStart();
    var free := [FreshSession, FreshSession];
    assert Scene([], free, NoCluster, maxRx);
    SceneConnect([], free, 0, maxRx);
    assert [] + [Connect(0)] == [Connect(0)] && free[0 := Caller] == [Caller, FreshSession];
    SceneConnect([Connect(0)], [Caller, FreshSession], 1, maxRx);
    assert [Caller, FreshSession][1 := Caller] == [Caller, Caller];
  }

  lemma GreetingsScene(maxRx: u32)
    requires maxRx >= ROOM
    ensures Scene(Greetings(), [Greeted, Greeted], NoCluster, maxRx)
  {
    ConnectedScene(maxRx);
    var es := [Connect(0)] + [Connect(0)];
    SceneHello(es, [Caller, Caller], 0, [Greeted, Caller], maxRx);
    SceneHello(es + [Bytewise(0, Hello(NAME))], [Greeted, Caller], 1, [Greeted, Greeted], maxRx);
  }

  lemma SceneEnrol(es: seq<Input>, ss: seq<Session>, cl: Cluster, n: nat, slot: nat, id: u32, tb: TieBreaker,
                   ss': seq<Session>, cl': Cluster, maxRx: u32)
    requires Scene(es, ss, cl, maxRx) && slot < |ss| && ss[slot] == Greeted && Fit(ss, id, tb) && maxRx >= ROOM
    requires cl == Roll(n) && cl' == Club(n + 1) && ss' == ss[slot := Member(id, tb)]
    ensures Scene(es + [Bytewise(slot, Enrolment(id, tb))], ss', cl', maxRx)
  {
    var st := SceneStep(es, ss, cl, slot, Enrolment(id, tb), maxRx);
    Enrolled(st, ss, n, slot, id, tb, Bytes(Enrolment(id, tb)), 0, maxRx);
  }

  lemma TwoEnrol(es: seq<Input>, x: u32, y: u32, tb: TieBreaker, maxRx: u32)
    requires Scene(es, [Greeted, Greeted], NoCluster, maxRx) && x != y && maxRx >= ROOM
    ensures Scene(es + [Bytewise(0, Enrolment(x, tb))] + [Bytewise(1, Enrolment(y, tb))],
                  [Member(x, tb), Member(y, tb)], Club(2), maxRx)
  {
    var a, b := Member(x, tb), Member(y, tb);
    ReplacedIs(Greeted, Greeted, 0, a, a, Greeted);
    SceneEnrol(es, [Greeted, Greeted], NoCluster, 0, 0, x, tb, [a, Greeted], Club(1), maxRx);
    ReplacedIs(a, Greeted, 1, b, a, b);
    SceneEnrol(es + [Bytewise(0, Enrolment(x, tb))], [a, Greeted], Club(1), 1, 1, y, tb, [a, b], Club(2), maxRx);
  }

  lemma HandshakeScene(x: u32, y: u32, tb: TieBreaker, maxRx: u32)
    requires x != y && maxRx >= ROOM
    ensures Scene(Handshake(x, y, tb), [Member(x, tb), Member(y, tb)], Club(2), maxRx)
  {
    GreetingsScene(maxRx);
    TwoEnrol(Greetings(), x, y, tb, maxRx);
  }

  // ---------------------------------------------------------------- the impostor

  /** Whatever the two nodes and their tie-breaker: after the handshake all members have distinct node
      ids, and an INIT by which the first takes the node id of the second ends that. */
  lemma ImpostorBreaks(x: u32, y: u32, tb: TieBreaker, maxRx: u32)
    requires x != y && maxRx >= ROOM
    ensures var es := Handshake(x, y, tb);
            && CleanRun(es, maxRx) && Inv(Run(es, maxRx).core, true)
            && !DistinctIds(Run(es + [Bytewise(0, Enrolment(y, tb))], maxRx).core, 0)
  {
    var es := Handshake(x, y, tb);
    var ss := [Member(x, tb), Member(y, tb)];
    HandshakeScene(x, y, tb, maxRx);
    CleanRunInv(es, maxRx);
    var st := SceneStep(es, ss, Club(2), 0, Enrolment(y, tb), maxRx);
    assert Plain(st.sessions[0]) == ss[0] && Plain(st.sessions[1]) == ss[1];
    RepeatedInit(st, 0, Said(Enrolment(y, tb)), 0, maxRx);
    var b := Run(es + [Bytewise(0, Enrolment(y, tb))], maxRx).core;
    assert InCluster(b, 0, 0) && InCluster(b, 0, 1);
  }

  // ---------------------------------------------------------------- the tie

  function Membered(id: u32): (r: Request) {
    Report(1, Membership, RingId(id, 1), Only(id))
  }

  function Configured(t: NodeListType, x: u32, y: u32): (r: Request) {
    Report(1, t, RingId(0, 0), Both(x, y))
  }

  /** The two nodes report themselves alone, and then their common configuration. */
  function Parting(x: u32, y: u32, tb: TieBreaker): (es: seq<Input>) {
    Handshake(x, y, tb) + [Bytewise(0, Membered(x))] + [Bytewise(1, Membered(y))]
    + [Bytewise(0, Configured(InitialConfig, x, y))] + [Bytewise(1, Configured(InitialConfig, x, y))]
  }

  /** Exactly the session in `slot` was replaced by `s`. */
  predicate Replaced(a: Session, b: Session, slot: nat, s: Session, a': Session, b': Session) {
    if slot == 0 then a' == s && b' == b else a' == a && b' == s
  }

  lemma ReplacedIs(a: Session, b: Session, slot: nat, s: Session, a': Session, b': Session)
    requires slot < 2 && Replaced(a, b, slot, s, a', b')
    ensures [a, b][slot := s] == [a', b']
  {
  }

  /** A report that calls for no decision. */
  lemma SceneReport(es: seq<Input>, ss: seq<Session>, cl: Cluster, slot: nat, r: Request, ss': seq<Session>, maxRx: u32)
    requires Scene(es, ss, cl, maxRx) && Joined(ss, slot) && Modest(r) && maxRx >= ROOM
    requires Outcomes.Reporting(ss[slot], RequestType(r), Said(r))
    requires !Outcomes.Decisive(Outcomes.Revised(ss[slot], RequestType(r), Said(r)), RequestType(r), Said(r))
    requires ss' == ss[slot := Outcomes.Revised(ss[slot], RequestType(r), Said(r))]
    ensures Scene(es + [Bytewise(slot, r)], ss', cl, maxRx)
  {
    var st := SceneStep(es, ss, cl, slot, r, maxRx);
    ReportStored(st, ss, cl, slot, RequestType(r), Said(r), Bytes(r), 0, maxRx);
  }

  lemma SceneMembered(es: seq<Input>, a: Session, b: Session, cl: Cluster, slot: nat, id: u32, a': Session, b': Session,
                      maxRx: u32)
    requires Scene(es, [a, b], cl, maxRx) && Joined([a, b], slot) && maxRx >= ROOM
    requires var s := [a, b][slot];
             s.config == [] && s.nodeId == id && Replaced(a, b, slot, Reported(s, RingId(id, 1), Only(id)), a', b')
    ensures Scene(es + [Bytewise(slot, Membered(id))], [a', b'], cl, maxRx)
  {
    ListIds(id, id);
    ReplacedIs(a, b, slot, Reported([a, b][slot], RingId(id, 1), Only(id)), a', b');
    SceneReport(es, [a, b], cl, slot, Membered(id), [a', b'], maxRx);
  }

  lemma SceneConfigured(es: seq<Input>, a: Session, b: Session, cl: Cluster, slot: nat, x: u32, y: u32,
                        a': Session, b': Session, maxRx: u32)
    requires Scene(es, [a, b], cl, maxRx) && Joined([a, b], slot) && maxRx >= ROOM
    requires var s := [a, b][slot];
             (s.nodeId == x || s.nodeId == y) && Replaced(a, b, slot, s.(config := Both(x, y)), a', b')
    ensures Scene(es + [Bytewise(slot, Configured(InitialConfig, x, y))], [a', b'], cl, maxRx)
  {
    ListIds(x, y);
    ReplacedIs(a, b, slot, [a, b][slot].(config := Both(x, y)), a', b');
    SceneReport(es, [a, b], cl, slot, Configured(InitialConfig, x, y), [a', b'], maxRx);
  }

  lemma MemberedScene(x: u32, y: u32, tb: TieBreaker, maxRx: u32)
    requires x != y && maxRx >= ROOM
    ensures Scene(Handshake(x, y, tb) + [Bytewise(0, Membered(x))] + [Bytewise(1, Membered(y))],
                  [Loner(x, tb, []), Loner(y, tb, [])], Club(2), maxRx)
  {
    var es := Handshake(x, y, tb);
    HandshakeScene(x, y, tb, maxRx);
    SceneMembered(es, Member(x, tb), Member(y, tb), Club(2), 0, x, Loner(x, tb, []), Member(y, tb), maxRx);
    SceneMembered(es + [Bytewise(0, Membered(x))], Loner(x, tb, []), Member(y, tb), Club(2), 1, y,
                  Loner(x, tb, []), Loner(y, tb, []), maxRx);
  }

  lemma PartingScene(x: u32, y: u32, tb: TieBreaker, maxRx: u32)
    requires x != y && maxRx >= ROOM
    ensures Scene(Parting(x, y, tb), [Loner(x, tb, Both(x, y)), Loner(y, tb, Both(x, y))], Club(2), maxRx)
  {
    var l := Both(x, y);
    var es := Handshake(x, y, tb) + [Bytewise(0, Membered(x))] + [Bytewise(1, Membered(y))];
    MemberedScene(x, y, tb, maxRx);
    SceneConfigured(es, Loner(x, tb, []), Loner(y, tb, []), Club(2), 0, x, y, Loner(x, tb, l), Loner(y, tb, []), maxRx);
    SceneConfigured(es + [Bytewise(0, Configured(InitialConfig, x, y))], Loner(x, tb, l), Loner(y, tb, []), Club(2), 1,
                    x, y, Loner(x, tb, l), Loner(y, tb, l), maxRx);
  }

  /** Two halves with a tie-breaker that names neither node, on the stored view of the server after
      the run: a stable view that leaves the tie to the order of the slots. */
  lemma PartingTies(x: u32, y: u32, z: u32, maxRx: u32)
    requires x != y && z != x && z != y && maxRx >= ROOM
    ensures var st := Run(Parting(x, y, TieBreaker(ByNodeId, z)), maxRx).core;
            && CleanRun(Parting(x, y, TieBreaker(ByNodeId, z)), maxRx)
            && var tv := StoredTrigger(st, 0, false);
               ValidTrigger(st, tv) && Stable(st, tv) && Partitioned(st, tv) && !Settled(st, tv)
  {
    var tb := TieBreaker(ByNodeId, z);
    PartingScene(x, y, tb, maxRx);
    var st := Run(Parting(x, y, tb), maxRx).core;
    var tv := StoredTrigger(st, 0, false);
    LonersAreSides(st, Club(2), x, y, tb);
    SidesStable(st, tv, x, y, tb);
    SidesPartitioned(st, tv, x, y, tb);
    FavouredOfTwo(tb, x, y);
    TieUnsettled(st, tv, x, y, tb);
  }

  /** The half that becomes quorate when neither has been: the favoured one, or the one that connected
      first. */
  function Elected(x: u32, y: u32, tb: TieBreaker): (id: u32) {
    match tb.mode
    case Lowest => if x < y then x else y
    case Highest => if x > y then x else y
    case ByNodeId => if tb.nodeId == y then y else x
  }

  /** The decision such a view leads to, for every tie-breaker. */
  lemma PartingDecided(x: u32, y: u32, tb: TieBreaker, maxRx: u32)
    requires x != y && maxRx >= ROOM
    ensures var es := Parting(x, y, tb) + [Bytewise(0, Configured(ChangedConfig, x, y))];
            Run(es, maxRx).core.clusters[0].quorate == Only(Elected(x, y, tb))
  {
    PartingScene(x, y, tb, maxRx);
    SceneDecided(Parting(x, y, tb), x, y, tb, maxRx);
  }

  lemma SceneDecided(es: seq<Input>, x: u32, y: u32, tb: TieBreaker, maxRx: u32)
    requires Scene(es, [Loner(x, tb, Both(x, y)), Loner(y, tb, Both(x, y))], Club(2), maxRx)
    requires x != y && maxRx >= ROOM
    ensures Run(es + [Bytewise(0, Configured(ChangedConfig, x, y))], maxRx).core.clusters[0].quorate
            == Only(Elected(x, y, tb))
  {
    var r := Configured(ChangedConfig, x, y);
    var st := SceneStep(es, [Loner(x, tb, Both(x, y)), Loner(y, tb, Both(x, y))], Club(2), 0, r, maxRx);
    LonersDecide(st, x, y, tb, Bytes(r), maxRx);
  }

  lemma LonersDecide(st: State, x: u32, y: u32, tb: TieBreaker, f: seq<byte>, maxRx: u32)
    requires Cast(st, [Loner(x, tb, Both(x, y)), Loner(y, tb, Both(x, y))], Club(2)) && Indexed(st) && x != y
    ensures Open(st, 0)
    ensures var b := HandleMsg(st, 0, NODE_LIST, Said(Configured(ChangedConfig, x, y)), f, 0, maxRx);
            |b.clusters| > 0 && b.clusters[0].quorate == Only(Elected(x, y, tb))
  {
    LonersAreSides(st, Club(2), x, y, tb);
    var tv := StoredTrigger(st, 0, false);
    ListIds(x, y);
    assert x in Ids(Both(x, y));
    assert Plain(st.sessions[0]) == Loner(x, tb, Both(x, y)) && Plain(st.sessions[1]) == Loner(y, tb, Both(x, y));
    ConfigRuns(st, 0, RingId(0, 0), Both(x, y), f, 0, maxRx);
    SidesStable(st, tv, x, y, Trimmed(tb));
    TwoHalves(st, tv, x, y, Trimmed(tb));
    QuorateIsWinner(st, tv, Only(Elected(x, y, tb)));
  }
}
