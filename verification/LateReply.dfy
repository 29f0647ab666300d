/** A run of the network in which a winner never gets its ACK: it still owes the reply to an earlier
    vote-info when the decision is taken, and that reply ends its wait. */
module LateReply {
  import opened Wire
  import opened Msg
  import opened ServerState
  import opened Stability
  import opened Selection
  import opened Votes
  import opened Protocol
  import opened Events
  import opened Invariants
  import opened Messages
  import opened Effects
  import opened Network
  import opened NetworkSteps
  import opened NetworkRuns
  import opened VoteRound
  import opened Delivery
  import opened ByteRuns
  import opened Requests
  import opened TwoSides
  import opened Pairs

  const LOWEST: TieBreaker := TieBreaker(Lowest, 0)

  /** The network `n` is reached, its server has the sessions `a` and `b`, and `k` vote-infos are
      unanswered on either link. */
  ghost predicate Stage(ms: seq<Move>, n: Net, a: Session, b: Session, cl: Cluster, k: nat, maxRx: u32) {
    && Reached(ms, n, maxRx) && NetInv(n) && Shaped(n) && Cast(n.srv, [a, b], cl)
    && InFlight(n.links[0]) == k && InFlight(n.links[1]) == k
  }

  /** The move by which the client in `slot` sends a request. */
  function Asks(slot: nat, r: Request): (mv: Move) {
    Deliver(slot, RequestType(r), Said(r), [], 0)
  }

  /** A step that decides nothing is calm. */
  lemma Undecided(st: State, tv: Trigger, b: State)
    requires CalmOrDecides(st, tv, b) && b.decisions == st.decisions
    ensures Calm(st, b)
  {
  }

  lemma CalmMsg(st: State, slot: nat, t: u16, m: Decoded, maxRx: u32)
    requires Open(st, slot) && Indexed(st) && Inv(st, true)
    requires CleanMsg(st.sessions[slot], t, m) && t != VOTE_INFO_REPLY
    requires HandleMsg(st, slot, t, m, [], 0, maxRx).decisions == st.decisions
    ensures Calm(st, HandleMsg(st, slot, t, m, [], 0, maxRx))
  {
    var tv := MsgEffect(st, slot, t, m, [], 0, maxRx);
    Undecided(st, tv, HandleMsg(st, slot, t, m, [], 0, maxRx));
  }

  /** And touches no channel. */
  lemma QuietDelivery(n: Net, slot: nat, t: u16, m: Decoded, maxRx: u32)
    requires NetInv(n) && Shaped(n) && Enabled(n, Deliver(slot, t, m, [], 0))
    requires HandleMsg(n.srv, slot, t, m, [], 0, maxRx).decisions == n.srv.decisions
    ensures Make(n, Deliver(slot, t, m, [], 0), maxRx).links == n.links
  {
    CalmMsg(n.srv, slot, t, m, maxRx);
    CalmLinks(n, HandleMsg(n.srv, slot, t, m, [], 0, maxRx), ClusterOf(n.srv, slot));
  }

  lemma Asked(ms: seq<Move>, n: Net, slot: nat, r: Request, maxRx: u32) returns (ms': seq<Move>, b: Net)
    requires Reached(ms, n, maxRx) && NetInv(n) && Shaped(n) && Enabled(n, Asks(slot, r))
    ensures Reached(ms', b, maxRx) && NetInv(b) && Shaped(b) && b == Make(n, Asks(slot, r), maxRx)
    ensures b.srv == HandleMsg(n.srv, slot, RequestType(r), Said(r), [], 0, maxRx)
  {
    ReachedMore(ms, n, Asks(slot, r), maxRx);
    ms', b := ms + [Asks(slot, r)], Make(n, Asks(slot, r), maxRx);
    ReachedInv(ms', b, maxRx);
  }

  /** A request that decides nothing. */
  lemma StageQuiet(ms: seq<Move>, n: Net, a: Session, b: Session, cl: Cluster, k: nat, slot: nat, r: Request,
                   a': Session, b': Session, cl': Cluster, maxRx: u32) returns (ms': seq<Move>, n': Net)
    requires Stage(ms, n, a, b, cl, k, maxRx) && Enabled(n, Asks(slot, r))
    requires var st := HandleMsg(n.srv, slot, RequestType(r), Said(r), [], 0, maxRx);
             Cast(st, [a', b'], cl') && st.decisions == n.srv.decisions
    ensures Stage(ms', n', a', b', cl', k, maxRx)
  {
    QuietDelivery(n, slot, RequestType(r), Said(r), maxRx);
    ms', n' := Asked(ms, n, slot, r, maxRx);
  }

  lemma StageConnect(ms: seq<Move>, n: Net, a: Session, b: Session, slot: nat, a': Session, b': Session, maxRx: u32)
    returns (ms': seq<Move>, n': Net)
    requires Stage(ms, n, a, b, NoCluster, 0, maxRx) && slot < 2 && [a, b][slot].phase == Free
    requires (slot == 1 ==> a.phase != Free) && [a', b'] == [a, b][slot := Caller]
    ensures Stage(ms', n', a', b', NoCluster, 0, maxRx)
  {
    var mv := Connect(0);
    ConnectMove(n, 0);
    CalmLinks(n, Connected(n.srv, 0), 0);
    CastConnect(n.srv, [a, b], slot, 0);
    ReachedMore(ms, n, mv, maxRx);
    ms', n' := ms + [mv], Make(n, mv, maxRx);
    ReachedInv(ms', n', maxRx);
  }

  lemma StageHello(ms: seq<Move>, n: Net, a: Session, b: Session, slot: nat, a': Session, b': Session, maxRx: u32)
    returns (ms': seq<Move>, n': Net)
    requires Stage(ms, n, a, b, NoCluster, 0, maxRx) && slot < 2 && [a, b][slot] == Caller
    requires [a', b'] == [a, b][slot := Greeted]
    ensures Stage(ms', n', a', b', NoCluster, 0, maxRx)
  {
    CastHello(n.srv, [a, b], slot, [], 0, maxRx);
    ms', n' := StageQuiet(ms, n, a, b, NoCluster, 0, slot, Hello(NAME), a', b', NoCluster, maxRx);
  }

  lemma StageGreeted(maxRx: u32) returns (ms: seq<Move>, n: Net)
    ensures Stage(ms, n, Greeted, Greeted, NoCluster, 0, maxRx)
  {
    ms, n := [], Start();
    StartInv();
    CastStart();
    ms, n := StageConnect(ms, n, FreshSession, FreshSession, 0, Caller, FreshSession, maxRx);
    ms, n := StageConnect(ms, n, Caller, FreshSession, 1, Caller, Caller, maxRx);
    ms, n := StageHello(ms, n, Caller, Caller, 0, Greeted, Caller, maxRx);
    ms, n := StageHello(ms, n, Greeted, Caller, 1, Greeted, Greeted, maxRx);
  }

  /** Both clients are members of one cluster. */
  lemma StageMembers(maxRx: u32) returns (ms: seq<Move>, n: Net)
    ensures Stage(ms, n, Member(1, LOWEST), Member(2, LOWEST), Club(2), 0, maxRx)
  {
    ms, n := StageGreeted(maxRx);
    assert Plain(n.srv.sessions[0]) == Greeted;
    EnrolCast(n.srv, [Greeted, Greeted], 0, 0, 1, [Member(1, LOWEST), Greeted], maxRx);
    ms, n := StageQuiet(ms, n, Greeted, Greeted, NoCluster, 0, 0, Enrolment(1, LOWEST),
                        Member(1, LOWEST), Greeted, Club(1), maxRx);
    assert Plain(n.srv.sessions[1]) == Greeted;
    EnrolCast(n.srv, [Member(1, LOWEST), Greeted], 1, 1, 2, [Member(1, LOWEST), Member(2, LOWEST)], maxRx);
    ms, n := StageQuiet(ms, n, Member(1, LOWEST), Greeted, Club(1), 0, 1, Enrolment(2, LOWEST),
                        Member(1, LOWEST), Member(2, LOWEST), Club(2), maxRx);
  }

  function Equipped(id: u32): (s: Session) {
    Member(id, LOWEST).(config := Both(1, 2))
  }

  lemma StageConfigured(maxRx: u32) returns (ms: seq<Move>, n: Net)
    ensures Stage(ms, n, Equipped(1), Equipped(2), Club(2), 0, maxRx)
  {
    ms, n := StageMembers(maxRx);
    ms, n := StageConfig(ms, n, Member(1, LOWEST), Member(2, LOWEST), 0, Equipped(1), Member(2, LOWEST), maxRx);
    ms, n := StageConfig(ms, n, Equipped(1), Member(2, LOWEST), 1, Equipped(1), Equipped(2), maxRx);
  }

  lemma StageConfig(ms: seq<Move>, n: Net, a: Session, b: Session, slot: nat, a': Session, b': Session, maxRx: u32)
    returns (ms': seq<Move>, n': Net)
    requires Stage(ms, n, a, b, Club(2), 0, maxRx) && Joined([a, b], slot)
    requires ([a, b][slot].nodeId == 1 || [a, b][slot].nodeId == 2)
    requires [a', b'] == [a, b][slot := [a, b][slot].(config := Both(1, 2))]
    ensures Stage(ms', n', a', b', Club(2), 0, maxRx)
  {
    ConfigCast(n.srv, a, b, slot, a', b', maxRx);
    ms', n' := StageQuiet(ms, n, a, b, Club(2), 0, slot, Report(1, InitialConfig, RingId(0, 0), Both(1, 2)),
                          a', b', Club(2), maxRx);
  }

  lemma EnrolCast(st: State, ss: seq<Session>, n: nat, slot: nat, id: u32, ss': seq<Session>, maxRx: u32)
    requires Cast(st, ss, Roll(n)) && Indexed(st) && slot < |ss| && ss[slot] == Greeted && Fit(ss, id, LOWEST)
    requires ss' == ss[slot := Member(id, LOWEST)]
    ensures Open(st, slot)
    ensures var b := HandleMsg(st, slot, INIT, Said(Enrolment(id, LOWEST)), [], 0, maxRx);
            Cast(b, ss', Club(n + 1)) && b.decisions == st.decisions
  {
    Enrolled(st, ss, n, slot, id, LOWEST, [], 0, maxRx);
  }

  lemma ConfigCast(st: State, a: Session, b: Session, slot: nat, a': Session, b': Session, maxRx: u32)
    requires Cast(st, [a, b], Club(2)) && Indexed(st) && Joined([a, b], slot)
    requires ([a, b][slot].nodeId == 1 || [a, b][slot].nodeId == 2)
    requires [a', b'] == [a, b][slot := [a, b][slot].(config := Both(1, 2))]
    ensures Open(st, slot)
    ensures var b := HandleMsg(st, slot, NODE_LIST, Said(Report(1, InitialConfig, RingId(0, 0), Both(1, 2))), [], 0,
                               maxRx);
            Cast(b, [a', b'], Club(2)) && b.decisions == st.decisions
  {
    ListIds(1, 2);
    ReportStored(st, [a, b], Club(2), slot, NODE_LIST, Said(Report(1, InitialConfig, RingId(0, 0), Both(1, 2))), [], 0,
                 maxRx);
    CastSame(HandleMsg(st, slot, NODE_LIST, Said(Report(1, InitialConfig, RingId(0, 0), Both(1, 2))), [], 0, maxRx),
            [a, b][slot := [a, b][slot].(config := Both(1, 2))], Club(2), [a', b']);
  }

  /** A membership report on an unstable view. */
  lemma StageUnstable(ms: seq<Move>, n: Net, a: Session, b: Session, cl: Cluster, k: nat, slot: nat, ring: RingId,
                      l: NodeList, a': Session, b': Session, maxRx: u32) returns (ms': seq<Move>, n': Net)
    requires Stage(ms, n, a, b, cl, k, maxRx) && Joined([a, b], slot)
    requires Has(l, [a, b][slot].nodeId) && [a, b][slot].config != []
    requires ValidTrigger(n.srv, ReportView(n.srv, slot, ring, l)) && !Stable(n.srv, ReportView(n.srv, slot, ring, l))
    requires [a', b'] == [a, b][slot := Reported([a, b][slot], ring, l)]
    ensures Stage(ms', n', a', b', cl.(state := WaitingForStable), k, maxRx)
  {
    ReportUnstable(n.srv, [a, b], cl, slot, ring, l, [], 0, maxRx);
    CastSame(HandleMsg(n.srv, slot, NODE_LIST, Said(Report(1, Membership, ring, l)), [], 0, maxRx),
            [a, b][slot := Reported([a, b][slot], ring, l)], cl.(state := WaitingForStable), [a', b']);
    ms', n' := StageQuiet(ms, n, a, b, cl, k, slot, Report(1, Membership, ring, l), a', b',
                          cl.(state := WaitingForStable), maxRx);
  }

  const RING: RingId := RingId(1, 5)

  /** The other side does not report what the first one does. */
  lemma Disagree(st: State, tv: Trigger, i: nat, j: nat)
    requires ValidTrigger(st, tv) && Takes(st, tv, i) && FirstOfId(st, tv, j) && !Agrees(st, tv, i, j)
    ensures !Stable(st, tv)
  {
  }

  function Sighted(id: u32): (s: Session) {
    Reported(Equipped(id), RING, Both(1, 2))
  }

  /** The first node reports the whole cluster, the second nothing yet. */
  lemma StageFirstReport(maxRx: u32) returns (ms: seq<Move>, n: Net)
    ensures Stage(ms, n, Sighted(1), Equipped(2), Club(2).(state := WaitingForStable), 0, maxRx)
  {
    var ms0, n0 := StageConfigured(maxRx);
    FirstReportUnstable(n0.srv);
    ListIds(1, 2);
    assert 1 in Ids(Both(1, 2));
    ms, n := StageUnstable(ms0, n0, Equipped(1), Equipped(2), Club(2), 0, 0, RING, Both(1, 2),
                           Sighted(1), Equipped(2), maxRx);
  }

  lemma FirstReportUnstable(st: State)
    requires Cast(st, [Equipped(1), Equipped(2)], Club(2))
    ensures var tv := ReportView(st, 0, RING, Both(1, 2)); ValidTrigger(st, tv) && !Stable(st, tv)
  {
    assert Plain(st.sessions[0]) == Equipped(1) && Plain(st.sessions[1]) == Equipped(2);
    var tv := ReportView(st, 0, RING, Both(1, 2));
    ListIds(1, 2);
    assert 2 in Ids(Both(1, 2)) && 2 !in Ids([]);
    assert FirstOfId(st, tv, 1);
    Disagree(st, tv, 0, 1);
  }

  // ---------------------------------------------------------------- the decisions

  /** A membership report on a stable view is a decision. */
  lemma ReportDecides(st: State, slot: nat, ring: RingId, l: NodeList, maxRx: u32)
    requires Open(st, slot) && Indexed(st) && Book(st) && st.sessions[slot].phase == Active
    requires Has(l, st.sessions[slot].nodeId) && st.sessions[slot].config != []
    requires ValidTrigger(st, ReportView(st, slot, ring, l)) && Stable(st, ReportView(st, slot, ring, l))
    ensures var tv := ReportView(st, slot, ring, l);
            Decides(st, tv, Winner(st, tv),
                    HandleMsg(st, slot, NODE_LIST, Said(Report(1, Membership, ring, l)), [], 0, maxRx))
  {
    var tv := ReportView(st, slot, ring, l);
    FfsplitVoteStep(st, tv);
    ReportRuns(st, slot, ring, l, [], 0, maxRx);
    var (st1, v) := FfsplitDo(st, tv);
    RunEffect(st, tv, Reported(st1.sessions[slot], ring, l), NodeListReply(1, Membership, ring, v));
  }

  /** What a decision adds to the links of cluster members: a NACK to a loser, an ACK to a winner if
      there is no loser. */
  lemma DecisionAdds(n: Net, tv: Trigger, w: Option<NodeList>, b: State, i: nat)
    requires Turn(n, tv, w, b) && InCluster(b, Site(n, tv), i)
    ensures InFlight(Advance(n, b, Site(n, tv)).links[i])
            == InFlight(n.links[i]) + (if Wins(w, b.sessions[i].nodeId) && AnyLoser(n.srv, tv, w) then 0 else 1)
  {
    assert DecidedAt(n.srv, tv, w, b, i);
    DecidesRecorded(n, tv, w, b);
  }

  /** A report that decides, as a move of the network. */
  lemma StageDecides(ms: seq<Move>, n: Net, slot: nat, ring: RingId, l: NodeList, maxRx: u32)
    returns (ms': seq<Move>, n': Net)
    requires Reached(ms, n, maxRx) && NetInv(n) && Shaped(n) && Open(n.srv, slot)
    requires n.srv.sessions[slot].phase == Active
    requires Has(l, n.srv.sessions[slot].nodeId) && n.srv.sessions[slot].config != []
    requires ValidTrigger(n.srv, ReportView(n.srv, slot, ring, l)) && Stable(n.srv, ReportView(n.srv, slot, ring, l))
    ensures Reached(ms', n', maxRx) && NetInv(n') && Shaped(n')
    ensures var b := HandleMsg(n.srv, slot, NODE_LIST, Said(Report(1, Membership, ring, l)), [], 0, maxRx);
            var tv := ReportView(n.srv, slot, ring, l);
            Turn(n, tv, Winner(n.srv, tv), b) && n' == Advance(n, b, Site(n, tv))
  {
    var r := Report(1, Membership, ring, l);
    ms', n' := Asked(ms, n, slot, r, maxRx);
    ReportDecides(n.srv, slot, ring, l, maxRx);
  }

  lemma SecondReportUnited(st: State)
    requires Cast(st, [Sighted(1), Equipped(2)], Club(2).(state := WaitingForStable))
    ensures var tv := ReportView(st, 1, RING, Both(1, 2));
            ValidTrigger(st, tv) && United(st, tv, Both(1, 2)) && Stable(st, tv) && Winner(st, tv) == Some(Both(1, 2))
  {
    assert Plain(st.sessions[0]) == Sighted(1) && Plain(st.sessions[1]) == Equipped(2);
    ListIds(1, 2);
    assert 1 in Ids(Both(1, 2)) && 2 in Ids(Both(1, 2));
    UnitedWins(st, ReportView(st, 1, RING, Both(1, 2)), Both(1, 2));
  }

  const AGREED: Cluster := Club(2).(state := SendingAcks, quorate := Both(1, 2))

  /** The second node agrees: both are sent an ACK. */
  lemma StageAgreed(maxRx: u32) returns (ms: seq<Move>, n: Net)
    ensures Stage(ms, n, Acknowledged(Sighted(1)), Acknowledged(Sighted(2)), AGREED, 1, maxRx)
  {
    var l := Both(1, 2);
    var ms0, n0 := StageFirstReport(maxRx);
    var st := n0.srv;
    var tv := ReportView(st, 1, RING, l);
    SecondReportUnited(st);
    AgreedCast(st, maxRx);
    ms, n := StageDecides(ms0, n0, 1, RING, l, maxRx);
    BothAdded(n0, tv, n.srv);
  }

  lemma AgreedCast(st: State, maxRx: u32)
    requires Cast(st, [Sighted(1), Equipped(2)], Club(2).(state := WaitingForStable)) && Indexed(st)
    ensures Open(st, 1) && st.sessions[1].phase == Active && st.sessions[1].config != []
    ensures Has(Both(1, 2), st.sessions[1].nodeId)
    ensures Cast(HandleMsg(st, 1, NODE_LIST, Said(Report(1, Membership, RING, Both(1, 2))), [], 0, maxRx),
                [Acknowledged(Sighted(1)), Acknowledged(Sighted(2))], AGREED)
  {
    var ss := [Sighted(1), Equipped(2)];
    SecondReportUnited(st);
    assert Plain(st.sessions[1]) == Equipped(2);
    ListIds(1, 2);
    assert 2 in Ids(Both(1, 2));
    ReportWins(st, ss, Club(2).(state := WaitingForStable), 1, RING, Both(1, 2), [], 0, maxRx);
    var ss1 := [Acknowledged(ss[0]), Acknowledged(ss[1])];
    assert ss1[1 := Reported(ss1[1], RING, Both(1, 2))] == [Acknowledged(Sighted(1)), Acknowledged(Sighted(2))];
  }

  lemma BothAdded(n: Net, tv: Trigger, b: State)
    requires Turn(n, tv, Some(Both(1, 2)), b) && Site(n, tv) == 0 && !tv.leaving
    requires Cast(b, [Acknowledged(Sighted(1)), Acknowledged(Sighted(2))], AGREED) && United(n.srv, tv, Both(1, 2))
    ensures var r := Advance(n, b, 0);
            InFlight(r.links[0]) == InFlight(n.links[0]) + 1 && InFlight(r.links[1]) == InFlight(n.links[1]) + 1
  {
    assert Plain(b.sessions[0]) == Acknowledged(Sighted(1)) && Plain(b.sessions[1]) == Acknowledged(Sighted(2));
    assert !AnyLoser(n.srv, tv, Some(Both(1, 2)));
    DecisionAdds(n, tv, Some(Both(1, 2)), b, 0);
    DecisionAdds(n, tv, Some(Both(1, 2)), b, 1);
  }

  function Cut(id: u32): (s: Session) {
    Reported(Acknowledged(Sighted(id)), RingId(id, 6), Only(id))
  }

  lemma DividedUnstable(st: State)
    requires Cast(st, [Acknowledged(Sighted(1)), Acknowledged(Sighted(2))], AGREED)
    ensures var tv := ReportView(st, 1, RingId(2, 6), Only(2)); ValidTrigger(st, tv) && !Stable(st, tv)
  {
    assert Plain(st.sessions[0]) == Acknowledged(Sighted(1)) && Plain(st.sessions[1]) == Acknowledged(Sighted(2));
    var tv := ReportView(st, 1, RingId(2, 6), Only(2));
    ListIds(1, 2);
    assert 2 in Ids(Both(1, 2));
    assert FirstOfId(st, tv, 1);
    Disagree(st, tv, 0, 1);
  }

  /** The second node sees itself alone; nobody has replied yet. */
  lemma StageDivided(maxRx: u32) returns (ms: seq<Move>, n: Net)
    ensures Stage(ms, n, Acknowledged(Sighted(1)), Cut(2), AGREED.(state := WaitingForStable), 1, maxRx)
  {
    var ms0, n0 := StageAgreed(maxRx);
    DividedUnstable(n0.srv);
    ListIds(2, 2);
    assert 2 in Ids(Only(2));
    ms, n := StageUnstable(ms0, n0, Acknowledged(Sighted(1)), Acknowledged(Sighted(2)), AGREED, 1, 1, RingId(2, 6),
                           Only(2), Acknowledged(Sighted(1)), Cut(2), maxRx);
  }

  /** And so does the first: a stable view of two halves, and the lowest node id wins. */
  lemma FirstHalfWins(st: State)
    requires Cast(st, [Acknowledged(Sighted(1)), Cut(2)], AGREED.(state := WaitingForStable))
    ensures var tv := ReportView(st, 0, RingId(1, 6), Only(1));
            ValidTrigger(st, tv) && Sides(st, tv, 1, 2, LOWEST) && Stable(st, tv) && Winner(st, tv) == Some(Only(1))
  {
    assert Plain(st.sessions[0]) == Acknowledged(Sighted(1)) && Plain(st.sessions[1]) == Cut(2);
    var tv := ReportView(st, 0, RingId(1, 6), Only(1));
    ListIds(1, 2);
    assert 1 in Ids(Both(1, 2)) && 2 in Ids(Both(1, 2));
    SidesStable(st, tv, 1, 2, LOWEST);
    TwoHalves(st, tv, 1, 2, LOWEST);
  }

  /** The decision between two connected halves that owe a reply each leads from `n0` to `n`. */
  ghost predicate Divides(n0: Net, tv: Trigger, n: Net) {
    && NetInv(n0) && NetInv(n) && Turn(n0, tv, Some(Only(1)), n.srv) && n == Advance(n0, n.srv, Site(n0, tv))
    && Sides(n0.srv, tv, 1, 2, LOWEST) && InFlight(n0.links[0]) == 1 && InFlight(n0.links[1]) == 1
    && forall i :: 2 <= i < |n0.srv.sessions| ==> n0.srv.sessions[i].phase == Free
  }

  /** The report of the first half, as a move. */
  lemma StageHalves(ms0: seq<Move>, n0: Net, maxRx: u32) returns (ms: seq<Move>, n: Net, tv: Trigger)
    requires Stage(ms0, n0, Acknowledged(Sighted(1)), Cut(2), AGREED.(state := WaitingForStable), 1, maxRx)
    ensures Reached(ms, n, maxRx) && NetInv(n) && Shaped(n) && Sides(n0.srv, tv, 1, 2, LOWEST)
    ensures Turn(n0, tv, Some(Only(1)), n.srv) && n == Advance(n0, n.srv, Site(n0, tv))
  {
    var st := n0.srv;
    tv := ReportView(st, 0, RingId(1, 6), Only(1));
    assert Plain(st.sessions[0]) == Acknowledged(Sighted(1));
    ListIds(1, 1);
    assert 1 in Ids(Only(1));
    FirstHalfWins(st);
    ms, n := StageDecides(ms0, n0, 0, RingId(1, 6), Only(1), maxRx);
  }

  /** The first node is to be ACKed once the second has acknowledged its NACK, and owes the reply to
      the first ACK: an exposed winner in a reached network. */
  lemma ExposedIsReached(maxRx: u32) returns (ms: seq<Move>, n: Net, d: nat)
    ensures Reached(ms, n, maxRx) && NetInv(n) && Shaped(n) && Room(n) && Exposed(n, 0, d, 0)
  {
    var ms0, n0 := StageDivided(maxRx);
    var tv;
    ms, n, tv := StageHalves(ms0, n0, maxRx);
    d := |n0.decided|;
    HalvesDivide(ms0, n0, tv, n, maxRx);
    HalfOutcome(n0, tv, n);
  }

  lemma HalvesDivide(ms0: seq<Move>, n0: Net, tv: Trigger, n: Net, maxRx: u32)
    requires Stage(ms0, n0, Acknowledged(Sighted(1)), Cut(2), AGREED.(state := WaitingForStable), 1, maxRx)
    requires NetInv(n) && Sides(n0.srv, tv, 1, 2, LOWEST)
    requires Turn(n0, tv, Some(Only(1)), n.srv) && n == Advance(n0, n.srv, Site(n0, tv))
    ensures Divides(n0, tv, n)
  {
  }

  lemma HalfOutcome(n0: Net, tv: Trigger, n: Net)
    requires Divides(n0, tv, n)
    ensures Exposed(n, 0, |n0.decided|, 0) && Room(n)
  {
    HalfExposed(n0, tv, n.srv);
    HalfRoom(n0, tv, Some(Only(1)), n.srv);
  }

  lemma HalfFacts(n: Net, tv: Trigger, b: State)
    requires Turn(n, tv, Some(Only(1)), b) && Sides(n.srv, tv, 1, 2, LOWEST) && Book(b)
    ensures Site(n, tv) == 0 && InCluster(b, 0, 0) && InCluster(b, 0, 1) && b.clusters[0].used
    ensures Wins(Some(Only(1)), b.sessions[0].nodeId) && AnyLoser(n.srv, tv, Some(Only(1)))
  {
    ListIds(1, 1);
    assert 1 in Ids(Only(1)) && 2 !in Ids(Only(1));
    assert Stays(n.srv, b, 0) && Stays(n.srv, b, 1);
    assert InCluster(b, 0, 0) && MemberOk(b, 0) && DecidedAt(n.srv, tv, Some(Only(1)), b, 0);
    assert Takes(n.srv, tv, 1) && !Wins(Some(Only(1)), n.srv.sessions[1].nodeId);
  }

  lemma HalfExposed(n: Net, tv: Trigger, b: State)
    requires NetInv(n) && Book(b) && Turn(n, tv, Some(Only(1)), b) && Sides(n.srv, tv, 1, 2, LOWEST)
    requires InFlight(n.links[0]) == 1
    ensures Exposed(Advance(n, b, Site(n, tv)), Site(n, tv), |n.decided|, 0)
  {
    HalfFacts(n, tv, b);
    DecisionExposes(n, tv, Some(Only(1)), b, 0);
  }

  /** Never more than two vote-infos are unanswered. */
  lemma HalfRoom(n: Net, tv: Trigger, w: Option<NodeList>, b: State)
    requires Turn(n, tv, w, b) && !tv.leaving && NetInv(Advance(n, b, Site(n, tv)))
    requires forall i :: 2 <= i < |n.srv.sessions| ==> n.srv.sessions[i].phase == Free
    requires forall i :: 0 <= i < 2 && i < |n.links| ==> InFlight(n.links[i]) == 1
    ensures Room(Advance(n, b, Site(n, tv)))
  {
    var r := Advance(n, b, Site(n, tv));
    DecidesRecorded(n, tv, w, b);
    forall i | 0 <= i < |r.links|
      ensures RoomAt(r, i)
    {
      HalfRoomAt(n, tv, w, b, r, i);
    }
  }

  lemma HalfRoomAt(n: Net, tv: Trigger, w: Option<NodeList>, b: State, r: Net, i: nat)
    requires Turn(n, tv, w, b) && !tv.leaving && Recorded(n, b, Site(n, tv), r) && i < |r.links| && LinkOk(r, i)
    requires n.srv.sessions[i].phase == Free || InFlight(n.links[i]) == 1
    ensures RoomAt(r, i)
  {
    assert Stays(n.srv, b, i) && Elsewhere(n.srv, b, Site(n, tv), i);
    if InCluster(b, Site(n, tv), i) {
      assert DecidedAt(n.srv, tv, w, b, i);
    }
  }

  // ---------------------------------------------------------------- the whole story

  lemma {:induction false} QuietReached(ms: seq<Move>, n: Net, qs: seq<Move>, r: Net, maxRx: u32)
    returns (ms': seq<Move>)
    requires Reached(ms, n, maxRx) && QuietRun(n, qs, r, maxRx)
    ensures Reached(ms', r, maxRx)
    decreases |qs|
  {
    if qs == [] {
      ms' := ms;
    } else {
      ReachedMore(ms, n, qs[0], maxRx);
      ms' := QuietReached(ms + [qs[0]], Make(n, qs[0], maxRx), qs[1..], r, maxRx);
    }
  }

  /** The network has a run in which a vote round is over and a connected winner of its decision was
      never sent the ACK. */
  lemma WinnerWithoutAck(maxRx: u32) returns (ms: seq<Move>, n: Net, d: nat)
    ensures Reached(ms, n, maxRx) && Forfeited(n, 0, d, 0) && Over(n.srv, 0)
  {
    var ms0, n0;
    ms0, n0, d := ExposedIsReached(maxRx);
    var qs;
    qs, n := LateReplyForfeits(n0, 0, d, 0, maxRx);
    ms := QuietReached(ms0, n0, qs, n, maxRx);
  }

  /** The network has a run in which two clients of a cluster are sent an ACK. */
  lemma AcksAreReached(maxRx: u32) returns (ms: seq<Move>, n: Net)
    ensures Reached(ms, n, maxRx) && InCluster(n.srv, 0, 0) && InCluster(n.srv, 0, 1)
    ensures n.srv.sessions[0].poll.lastAckNack == Ack && n.srv.sessions[1].poll.lastAckNack == Ack
  {
    ms, n := StageAgreed(maxRx);
    assert Plain(n.srv.sessions[0]) == Acknowledged(Sighted(1));
    assert Plain(n.srv.sessions[1]) == Acknowledged(Sighted(2));
  }
}
