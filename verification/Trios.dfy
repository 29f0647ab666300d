/** A run in which the same report, sent twice, decides differently. Of four nodes, 1 and 2 are
    connected in one half and node 3 in the other, with a passing result. When node 1 reports a failure
    its half stays ahead, because node 2 still counts the stored result of node 1; when node 1 repeats
    itself the other half becomes quorate. */
module Trios {
  import opened Wire
  import opened Msg
  import opened ServerState
  import opened Stability
  import opened Selection
  import opened SlotOrder
  import opened Merit
  import opened Protocol
  import opened Events
  import opened Runs
  import opened Framing
  import opened Requests
  import opened Reports
  import O = Outcomes
  import opened TwoSides
  import opened Pairs
  import opened Arrivals
  import opened Setbacks

  const QUAD: NodeList := [Node(1), Node(2), Node(3), Node(4)]

  lemma QuadIds()
    ensures Ids(QUAD) == {1, 2, 3, 4} && DuplicateFree(QUAD)
    ensures Ids(Both(1, 2)) == {1, 2} && Ids(Both(3, 4)) == {3, 4}
    ensures DuplicateFree(Both(1, 2)) && DuplicateFree(Both(3, 4))
  {
    ListIds(1, 2);
    ListIds(3, 4);
    assert forall id :: id in Ids(QUAD) <==> id in {1, 2, 3, 4} by {
      assert QUAD[0].nodeId == 1 && QUAD[1].nodeId == 2 && QUAD[2].nodeId == 3 && QUAD[3].nodeId == 4;
    }
  }

  /** A member with the configuration `QUAD` and these reports. */
  predicate Stands(s: Session, id: u32, tb: TieBreaker, ring: RingId, l: NodeList, h: Heuristics) {
    && s.phase == Active && s.cluster == 0 && s.nodeId == id && s.tieBreaker == tb
    && s.config == QUAD && s.membership == l && s.ring == ring && s.heuristics == h
  }

  /** The three members; node 1 has result `h`. */
  ghost predicate Trio(st: State, tb: TieBreaker, h: Heuristics) {
    && |st.sessions| >= 3 && |st.clusters| > 0
    && Stands(st.sessions[0], 1, tb, RingId(1, 1), Both(1, 2), h)
    && Stands(st.sessions[1], 2, tb, RingId(1, 1), Both(1, 2), HeurUndefined)
    && Stands(st.sessions[2], 3, tb, RingId(3, 1), Both(3, 4), Pass)
    && (forall i :: InCluster(st, 0, i) ==> i < 3)
  }

  /** What node 1 reports. */
  function Failed(st: State): (s': Session)
    requires |st.sessions| > 0
  {
    st.sessions[0].(heuristics := Fail)
  }

  lemma TrioView(st: State, tb: TieBreaker, h: Heuristics)
    requires Trio(st, tb, h)
    ensures Offers(st, 0, Failed(st)) && ValidTrigger(st, View(0, Failed(st)))
    ensures var tv := View(0, Failed(st));
            && TriggerCluster(st, tv) == 0
            && (forall i :: Takes(st, tv, i) <==> 0 <= i < 3)
            && (forall i :: 0 <= i < 3 ==> EffConfig(st, tv, i) == QUAD)
            && (forall i :: 0 <= i < 3 ==> EffMembership(st, tv, i) == if i == 2 then Both(3, 4) else Both(1, 2))
            && (forall i :: 0 <= i < 3 ==> EffRing(st, tv, i) == RingId(if i == 2 then 3 else 1, 1))
            && (forall i :: 0 <= i < 3 ==> st.sessions[i].nodeId == i + 1 && st.sessions[i].cluster == 0
                                           && st.sessions[i].tieBreaker == tb)
  {
    assert InCluster(st, 0, 0) && InCluster(st, 0, 1) && InCluster(st, 0, 2);
  }

  /** The node ids in the half of slot `i`. */
  function Half(i: nat): (ids: set<u32>) {
    if i == 2 then {3, 4} else {1, 2}
  }

  lemma TrioIds(st: State, tb: TieBreaker, h: Heuristics, i: nat)
    requires Trio(st, tb, h) && i < 3
    ensures var tv := View(0, Failed(st));
            && Ids(EffMembership(st, tv, i)) == Half(i) && EffConfig(st, tv, i) == QUAD
            && DuplicateFree(EffMembership(st, tv, i)) && |EffMembership(st, tv, i)| == 2
  {
    TrioView(st, tb, h);
    QuadIds();
  }

  lemma TrioListed(st: State, tb: TieBreaker, h: Heuristics, i: nat)
    requires Trio(st, tb, h) && i < 3
    ensures var tv := View(0, Failed(st));
            WellListed(st, tv, i) && Has(EffMembership(st, tv, i), st.sessions[i].nodeId)
  {
    TrioIds(st, tb, h, i);
    assert Ids(QUAD) == {1, 2, 3, 4} && DuplicateFree(QUAD) by {
      QuadIds();
    }
    assert st.sessions[i].nodeId in Half(i);
  }

  lemma TrioPair(st: State, tb: TieBreaker, h: Heuristics, i: nat, j: nat)
    requires Trio(st, tb, h) && i < 3 && j < 3
    ensures var tv := View(0, Failed(st));
            && (Together(st, tv, i, j) <==> (i == 2 <==> j == 2)) && (Apart(st, tv, i, j) <==> !(i == 2 <==> j == 2))
  {
    TrioIds(st, tb, h, i);
    TrioIds(st, tb, h, j);
    assert 3 in Half(2) && 3 !in Half(0) && 1 in Half(0) && Half(1) == Half(0);
  }

  lemma TrioAgrees(st: State, tb: TieBreaker, h: Heuristics, i: nat, j: nat)
    requires Trio(st, tb, h) && i < 3 && j < 3
    ensures Agrees(st, View(0, Failed(st)), i, j)
  {
    TrioView(st, tb, h);
    TrioPair(st, tb, h, i, j);
    var tv := View(0, Failed(st));
    if Has(EffMembership(st, tv, i), st.sessions[j].nodeId) {
      TrioIds(st, tb, h, i);
      assert st.sessions[j].nodeId in Half(i);
    }
  }

  lemma TrioStable(st: State, tb: TieBreaker, h: Heuristics)
    requires Trio(st, tb, h)
    ensures ValidTrigger(st, View(0, Failed(st))) && Stable(st, View(0, Failed(st)))
  {
    TrioView(st, tb, h);
    var tv := View(0, Failed(st));
    forall i, j | Takes(st, tv, i) && Takes(st, tv, j)
      ensures Agrees(st, tv, i, j) && EffConfig(st, tv, i) == EffConfig(st, tv, j)
    {
      TrioAgrees(st, tb, h, i, j);
    }
  }

  lemma TrioMembers(st: State, tb: TieBreaker, h: Heuristics)
    requires Trio(st, tb, h)
    ensures ValidTrigger(st, View(0, Failed(st))) && TriggerCluster(st, View(0, Failed(st))) == 0
    ensures forall i :: Takes(st, View(0, Failed(st)), i) ==> 0 <= i < 3 && st.sessions[i].tieBreaker == tb
    ensures DistinctIds(st, 0)
  {
    TrioView(st, tb, h);
  }

  lemma TrioPartitioned(st: State, tb: TieBreaker, h: Heuristics)
    requires Trio(st, tb, h)
    ensures ValidTrigger(st, View(0, Failed(st))) && Partitioned(st, View(0, Failed(st)))
  {
    TrioMembers(st, tb, h);
    TrioStable(st, tb, h);
    var tv := View(0, Failed(st));
    forall i | Takes(st, tv, i)
      ensures WellListed(st, tv, i) && Has(EffMembership(st, tv, i), st.sessions[i].nodeId)
    {
      TrioListed(st, tb, h, i);
    }
    forall i, j | Takes(st, tv, i) && Takes(st, tv, j)
      ensures Together(st, tv, i, j) || Apart(st, tv, i, j)
    {
      TrioPair(st, tb, h, i, j);
    }
    FallsApart(st, tv, tb);
  }

  lemma FallsApart(st: State, tv: Trigger, tb: TieBreaker)
    requires ValidTrigger(st, tv) && SameConfigs(st, tv) && DistinctIds(st, TriggerCluster(st, tv))
    requires forall i :: Takes(st, tv, i) ==> WellListed(st, tv, i) && st.sessions[i].tieBreaker == tb
    requires forall i :: Takes(st, tv, i) ==> Has(EffMembership(st, tv, i), st.sessions[i].nodeId)
    requires forall i, j :: Takes(st, tv, i) && Takes(st, tv, j) ==> Together(st, tv, i, j) || Apart(st, tv, i, j)
    ensures Partitioned(st, tv)
  {
  }

  /** Who is in the partition of whom. */
  lemma TrioCrowds(st: State, tb: TieBreaker, h: Heuristics)
    requires Trio(st, tb, h)
    ensures var tv := View(0, Failed(st));
            Crowd(st, tv, 0) == {0, 1} && Crowd(st, tv, 1) == {0, 1} && Crowd(st, tv, 2) == {2}
  {
    TrioView(st, tb, h);
    QuadIds();
    assert forall k: u32 :: Has(Both(1, 2), k) <==> k in Ids(Both(1, 2));
    assert forall k: u32 :: Has(Both(3, 4), k) <==> k in Ids(Both(3, 4));
    assert InCluster(st, 0, 0) && InCluster(st, 0, 1) && InCluster(st, 0, 2);
  }

  lemma TrioStandings(st: State, tb: TieBreaker, h: Heuristics)
    requires Trio(st, tb, h)
    ensures var tv := View(0, Failed(st));
            && Standing(st, tv, 0) == 1 && Standing(st, tv, 1) == 2 + Swing(h) && Standing(st, tv, 2) == 2
  {
    TrioCrowds(st, tb, h);
    var tv := View(0, Failed(st));
    assert Saying(st, tv, 0, Pass) == {} && Saying(st, tv, 0, Fail) == {0};
    assert Saying(st, tv, 1, Pass) == if h == Pass then {0} else {};
    assert Saying(st, tv, 1, Fail) == if h == Fail then {0} else {};
    assert Saying(st, tv, 2, Pass) == {2} && Saying(st, tv, 2, Fail) == {};
  }

  /** Node 3 yields to node 2 unless node 1 had failed before; then both yield to node 3. */
  lemma TrioOutdone(st: State, tb: TieBreaker, h: Heuristics)
    requires Trio(st, tb, h)
    ensures ValidTrigger(st, View(0, Failed(st)))
    ensures var tv := View(0, Failed(st));
            if h == Fail then Outdone(st, tv, 0, 2) && Outdone(st, tv, 1, 2) else Outdone(st, tv, 2, 1)
  {
    TrioView(st, tb, h);
    TrioCrowds(st, tb, h);
    TrioStandings(st, tb, h);
  }

  /** The half of nodes 1 and 2 stays ahead unless node 1 had failed before. */
  lemma TrioWinner(st: State, tb: TieBreaker, h: Heuristics)
    requires Trio(st, tb, h)
    ensures ValidTrigger(st, View(0, Failed(st))) && Winner(st, View(0, Failed(st))).Some?
    ensures Ids(Winner(st, View(0, Failed(st))).value) == if h == Fail then {3, 4} else {1, 2}
  {
    var tv := View(0, Failed(st));
    var i := if h == Fail then 2 else 1;
    TrioView(st, tb, h);
    TrioPartitioned(st, tb, h);
    TrioIds(st, tb, h, i);
    forall k | Candidate(st, tv, k) && !Together(st, tv, k, i)
      ensures Outdone(st, tv, k, i)
    {
      TrioPair(st, tb, h, k, i);
      TrioOutdone(st, tb, h);
    }
    HalfPrevails(st, tv, i);
  }

  // ---------------------------------------------------------------- the report

  lemma TrioKept(a: State, b: State, tb: TieBreaker, h: Heuristics)
    requires Trio(a, tb, h) && O.Kept(a, b, 0, Failed(a)) && |b.clusters| == |a.clusters|
    ensures Trio(b, tb, Fail)
  {
    assert VoteFieldsOnly(a.sessions[1], b.sessions[1]) && VoteFieldsOnly(a.sessions[2], b.sessions[2]);
    forall i | InCluster(b, 0, i)
      ensures i < 3
    {
      if i >= 3 {
        assert VoteFieldsOnly(a.sessions[i], b.sessions[i]);
        assert InCluster(a, 0, i);
      }
    }
  }

  lemma TrioReports(st: State, tb: TieBreaker, h: Heuristics, m: Decoded, f: seq<byte>, now: nat, maxRx: u32)
    requires Trio(st, tb, h) && Open(st, 0) && Indexed(st) && m.seqNumberSet && m.heuristics == Fail
    ensures var b := HandleMsg(st, 0, 16, m, f, now, maxRx);
            && Trio(b, tb, Fail)
            && Ids(b.clusters[0].quorate) == if h == Fail then {3, 4} else {1, 2}
  {
    TrioView(st, tb, h);
    O.ReportOutcome(st, 0, 16, m, f, now, maxRx);
    TrioStable(st, tb, h);
    StableAsStored(st, 0, Failed(st));
    TrioWinner(st, tb, h);
    TrioKept(st, HandleMsg(st, 0, 16, m, f, now, maxRx), tb, h);
  }

  /** Had the report been stored first, it would have cost the half its vote at once. */
  lemma StoredFirst(st: State, tb: TieBreaker, h: Heuristics)
    requires Trio(st, tb, h)
    ensures var (st1, tv) := (SetSession(st, 0, Failed(st)), View(0, Failed(st)));
            ValidTrigger(st1, tv) && Winner(st1, tv).Some? && Ids(Winner(st1, tv).value) == {3, 4}
  {
    var st1 := SetSession(st, 0, Failed(st));
    assert Trio(st1, tb, Fail) by {
      forall i | InCluster(st1, 0, i)
        ensures i < 3
      {
        assert InCluster(st, 0, i);
      }
    }
    assert Failed(st1) == Failed(st);
    TrioWinner(st1, tb, Fail);
  }

  // ---------------------------------------------------------------- the run

  /** Three sessions of which the first `k` have moved on. */
  function Mixed(k: nat, after: seq<Session>, before: seq<Session>): (ss: seq<Session>)
    requires k <= 3 == |after| == |before|
    ensures |ss| == 3
  {
    after[..k] + before[k..]
  }

  lemma MixedNext(k: nat, after: seq<Session>, before: seq<Session>)
    requires k < 3 == |after| == |before|
    ensures Mixed(k, after, before)[k := after[k]] == Mixed(k + 1, after, before)
    ensures Mixed(k, after, before)[k] == before[k]
  {
  }

  lemma MixedEnds(after: seq<Session>, before: seq<Session>)
    requires 3 == |after| == |before|
    ensures Mixed(0, after, before) == before && Mixed(3, after, before) == after
  {
  }

  const Nobody: seq<Session> := [FreshSession, FreshSession, FreshSession]
  const Callers: seq<Session> := [Caller, Caller, Caller]
  const Greeters: seq<Session> := [Greeted, Greeted, Greeted]

  function Members3(tb: TieBreaker): (ss: seq<Session>) {
    [Member(1, tb), Member(2, tb), Member(3, tb)]
  }

  function Calls(): (es: seq<Input>) {
    [] + [Connect(0)] + [Connect(0)] + [Connect(0)]
  }

  lemma CallNext(es: seq<Input>, k: nat, ss: seq<Session>, ss': seq<Session>, maxRx: u32)
    requires k < 3 && ss == Mixed(k, Callers, Nobody) && ss' == Mixed(k + 1, Callers, Nobody)
    requires Scene(es, ss, NoCluster, maxRx)
    ensures Scene(es + [Connect(0)], ss', NoCluster, maxRx)
  {
    MixedNext(k, Callers, Nobody);
    SceneConnect(es, ss, k, maxRx);
  }

  lemma CallsScene(maxRx: u32)
    ensures Scene(Calls(), Callers, NoCluster, maxRx)
  {
    var (s0, s3) := (Nobody, Callers);
    var (s1, s2) := (Mixed(1, s3, s0), Mixed(2, s3, s0));
    MixedEnds(Callers, Nobody);
    var es: seq<Input> := [];
    assert Scene(es, s0, NoCluster, maxRx);
    CallNext(es, 0, s0, s1, maxRx);
    CallNext(es + [Connect(0)], 1, s1, s2, maxRx);
    CallNext(es + [Connect(0)] + [Connect(0)], 2, s2, s3, maxRx);
  }

  function Hellos(es: seq<Input>): (r: seq<Input>) {
    es + [Bytewise(0, Hello(NAME))] + [Bytewise(1, Hello(NAME))] + [Bytewise(2, Hello(NAME))]
  }

  lemma HelloNext(es: seq<Input>, e: Input, k: nat, ss: seq<Session>, ss': seq<Session>, maxRx: u32)
    requires k < 3 && e == Bytewise(k, Hello(NAME))
    requires ss == Mixed(k, Greeters, Callers) && ss' == Mixed(k + 1, Greeters, Callers)
    requires Scene(es, ss, NoCluster, maxRx) && maxRx >= ROOM
    ensures Scene(es + [e], ss', NoCluster, maxRx)
  {
    MixedNext(k, Greeters, Callers);
    SceneHello(es, ss, k, ss', maxRx);
  }

  lemma HellosScene(es: seq<Input>, maxRx: u32)
    requires Scene(es, Callers, NoCluster, maxRx) && maxRx >= ROOM
    ensures Scene(Hellos(es), Greeters, NoCluster, maxRx)
  {
    var (s0, s3) := (Callers, Greeters);
    var (s1, s2) := (Mixed(1, s3, s0), Mixed(2, s3, s0));
    MixedEnds(Greeters, Callers);
    var (e0, e1, e2) := (Bytewise(0, Hello(NAME)), Bytewise(1, Hello(NAME)), Bytewise(2, Hello(NAME)));
    HelloNext(es, e0, 0, s0, s1, maxRx);
    HelloNext(es + [e0], e1, 1, s1, s2, maxRx);
    HelloNext(es + [e0] + [e1], e2, 2, s2, s3, maxRx);
  }

  function Enrols(es: seq<Input>, tb: TieBreaker): (r: seq<Input>) {
    es + [Bytewise(0, Enrolment(1, tb))] + [Bytewise(1, Enrolment(2, tb))] + [Bytewise(2, Enrolment(3, tb))]
  }

  lemma MemberAt(i: nat, tb: TieBreaker)
    requires i < 3
    ensures Members3(tb)[i] == Member(i + 1, tb)
  {
  }

  lemma GreeterAt(i: nat)
    requires i < 3
    ensures Greeters[i] == Greeted
  {
  }

  lemma JoinerAt(k: nat, ss: seq<Session>, tb: TieBreaker, i: nat)
    requires k < 3 && ss == Mixed(k, Members3(tb), Greeters) && i < 3
    ensures ss[i] == if i < k then Member(i + 1, tb) else Greeted
  {
    MemberAt(i, tb);
    GreeterAt(i);
    assert ss[i] == if i < k then Members3(tb)[i] else Greeters[i];
  }

  lemma MembersFit(k: nat, ss: seq<Session>, tb: TieBreaker)
    requires k < 3 && ss == Mixed(k, Members3(tb), Greeters)
    ensures Fit(ss, k + 1, tb)
  {
    forall i | 0 <= i < 3
      ensures ss[i] == if i < k then Member(i + 1, tb) else Greeted
    {
      JoinerAt(k, ss, tb, i);
    }
  }

  lemma JoinNext(es: seq<Input>, k: nat, ss: seq<Session>, ss': seq<Session>, cl: Cluster, cl': Cluster,
                 tb: TieBreaker, maxRx: u32)
    requires k < 3 && ss == Mixed(k, Members3(tb), Greeters) && ss' == Mixed(k + 1, Members3(tb), Greeters)
    requires cl == Roll(k) && cl' == Roll(k + 1) && Scene(es, ss, cl, maxRx) && maxRx >= ROOM
    ensures Scene(es + [Bytewise(k, Enrolment(k + 1, tb))], ss', cl', maxRx)
  {
    MixedNext(k, Members3(tb), Greeters);
    MemberAt(k, tb);
    MembersFit(k, ss, tb);
    SceneEnrol(es, ss, cl, k, k, k + 1, tb, ss', cl', maxRx);
  }

  lemma EnrolsScene(es: seq<Input>, tb: TieBreaker, maxRx: u32)
    requires Scene(es, Greeters, NoCluster, maxRx) && maxRx >= ROOM
    ensures Scene(Enrols(es, tb), Members3(tb), Club(3), maxRx)
  {
    var (s0, s3) := (Greeters, Members3(tb));
    var (s1, s2) := (Mixed(1, s3, s0), Mixed(2, s3, s0));
    MixedEnds(s3, s0);
    var es1 := es + [Bytewise(0, Enrolment(1, tb))];
    var es2 := es1 + [Bytewise(1, Enrolment(2, tb))];
    JoinNext(es, 0, s0, s1, NoCluster, Club(1), tb, maxRx);
    JoinNext(es1, 1, s1, s2, Club(1), Club(2), tb, maxRx);
    JoinNext(es2, 2, s2, s3, Club(2), Club(3), tb, maxRx);
  }

  /** What the three report, before any has a configuration. */
  function Seen(k: nat): (r: Request)
    requires k < 3
  {
    if k == 2 then Attest(1, RingId(3, 1), Both(3, 4), Pass)
    else Report(1, Membership, RingId(1, 1), Both(1, 2))
  }

  function Witness(k: nat, tb: TieBreaker): (s: Session)
    requires k < 3
  {
    O.Revised(Member(k + 1, tb), 10, Said(Seen(k)))
  }

  function Witnesses(tb: TieBreaker): (ss: seq<Session>) {
    [Witness(0, tb), Witness(1, tb), Witness(2, tb)]
  }

  function Sightings(es: seq<Input>): (r: seq<Input>) {
    es + [Bytewise(0, Seen(0))] + [Bytewise(1, Seen(1))] + [Bytewise(2, Seen(2))]
  }

  lemma SeenNext(es: seq<Input>, e: Input, k: nat, ss: seq<Session>, ss': seq<Session>, tb: TieBreaker, maxRx: u32)
    requires k < 3 && e == Bytewise(k, Seen(k))
    requires ss == Mixed(k, Witnesses(tb), Members3(tb)) && ss' == Mixed(k + 1, Witnesses(tb), Members3(tb))
    requires Scene(es, ss, Club(3), maxRx) && maxRx >= ROOM
    ensures Scene(es + [e], ss', Club(3), maxRx)
  {
    MixedNext(k, Witnesses(tb), Members3(tb));
    SceneSeen(es, ss, Club(3), k, tb, ss', maxRx);
  }

  lemma SceneSeen(es: seq<Input>, ss: seq<Session>, cl: Cluster, k: nat, tb: TieBreaker, ss': seq<Session>, maxRx: u32)
    requires Scene(es, ss, cl, maxRx) && k < 3 == |ss| && ss[k] == Member(k + 1, tb) && maxRx >= ROOM
    requires ss' == ss[k := Witness(k, tb)]
    ensures Scene(es + [Bytewise(k, Seen(k))], ss', cl, maxRx)
  {
    QuadIds();
    SceneReport(es, ss, cl, k, Seen(k), ss', maxRx);
  }

  lemma ReportsScene(es: seq<Input>, tb: TieBreaker, maxRx: u32)
    requires Scene(es, Members3(tb), Club(3), maxRx) && maxRx >= ROOM
    ensures Scene(Sightings(es), Witnesses(tb), Club(3), maxRx)
  {
    var (s0, s3) := (Members3(tb), Witnesses(tb));
    var (s1, s2) := (Mixed(1, s3, s0), Mixed(2, s3, s0));
    MixedEnds(Witnesses(tb), Members3(tb));
    var (e0, e1, e2) := (Bytewise(0, Seen(0)), Bytewise(1, Seen(1)), Bytewise(2, Seen(2)));
    SeenNext(es, e0, 0, s0, s1, tb, maxRx);
    SeenNext(es + [e0], e1, 1, s1, s2, tb, maxRx);
    SeenNext(es + [e0] + [e1], e2, 2, s2, s3, tb, maxRx);
  }

  const Configuration: Request := Report(1, InitialConfig, RingId(0, 0), QUAD)

  function Configs(es: seq<Input>): (r: seq<Input>) {
    es + [Bytewise(0, Configuration)] + [Bytewise(1, Configuration)] + [Bytewise(2, Configuration)]
  }

  function Prepared(k: nat, tb: TieBreaker): (s: Session)
    requires k < 3
  {
    Witness(k, tb).(config := QUAD)
  }

  function Everybody(tb: TieBreaker): (ss: seq<Session>) {
    [Prepared(0, tb), Prepared(1, tb), Prepared(2, tb)]
  }

  lemma ConfigNext(es: seq<Input>, e: Input, k: nat, ss: seq<Session>, ss': seq<Session>, tb: TieBreaker, maxRx: u32)
    requires k < 3 && e == Bytewise(k, Configuration)
    requires ss == Mixed(k, Everybody(tb), Witnesses(tb)) && ss' == Mixed(k + 1, Everybody(tb), Witnesses(tb))
    requires Scene(es, ss, Club(3), maxRx) && maxRx >= ROOM
    ensures Scene(es + [e], ss', Club(3), maxRx)
  {
    MixedNext(k, Everybody(tb), Witnesses(tb));
    SceneConfig(es, ss, Club(3), k, tb, ss', maxRx);
  }

  lemma SceneConfig(es: seq<Input>, ss: seq<Session>, cl: Cluster, k: nat, tb: TieBreaker, ss': seq<Session>,
                    maxRx: u32)
    requires Scene(es, ss, cl, maxRx) && k < 3 == |ss| && ss[k] == Witness(k, tb) && maxRx >= ROOM
    requires ss' == ss[k := Prepared(k, tb)]
    ensures Scene(es + [Bytewise(k, Configuration)], ss', cl, maxRx)
  {
    QuadIds();
    SceneReport(es, ss, cl, k, Configuration, ss', maxRx);
  }

  lemma ConfigsScene(es: seq<Input>, tb: TieBreaker, maxRx: u32)
    requires Scene(es, Witnesses(tb), Club(3), maxRx) && maxRx >= ROOM
    ensures Scene(Configs(es), Everybody(tb), Club(3), maxRx)
  {
    var (s0, s3) := (Witnesses(tb), Everybody(tb));
    var (s1, s2) := (Mixed(1, s3, s0), Mixed(2, s3, s0));
    MixedEnds(Everybody(tb), Witnesses(tb));
    var (e0, e1, e2) := (Bytewise(0, Configuration), Bytewise(1, Configuration), Bytewise(2, Configuration));
    ConfigNext(es, e0, 0, s0, s1, tb, maxRx);
    ConfigNext(es + [e0], e1, 1, s1, s2, tb, maxRx);
    ConfigNext(es + [e0] + [e1], e2, 2, s2, s3, tb, maxRx);
  }

  /** Three peers arrive and report; nothing is decided yet. */
  function Prelude(tb: TieBreaker): (es: seq<Input>) {
    Configs(Sightings(Enrols(Hellos(Calls()), tb)))
  }

  lemma PreludeScene(tb: TieBreaker, maxRx: u32)
    requires maxRx >= ROOM
    ensures Scene(Prelude(tb), Everybody(tb), Club(3), maxRx)
  {
    CallsScene(maxRx);
    HellosScene(Calls(), maxRx);
    EnrolsScene(Hellos(Calls()), tb, maxRx);
    ReportsScene(Enrols(Hellos(Calls()), tb), tb, maxRx);
    ConfigsScene(Sightings(Enrols(Hellos(Calls()), tb)), tb, maxRx);
  }

  lemma CastIsTrio(st: State, tb: TieBreaker)
    requires Cast(st, Everybody(tb), Club(3))
    ensures Trio(st, Trimmed(tb), HeurUndefined)
  {
    assert Plain(st.sessions[0]) == Prepared(0, tb) && Plain(st.sessions[1]) == Prepared(1, tb);
    assert Plain(st.sessions[2]) == Prepared(2, tb);
  }

  lemma RenewedTrio(st: State, tb: TieBreaker, h: Heuristics)
    requires Trio(st, tb, h) && Open(st, 0)
    ensures Trio(Renewed(st, 0, 0), tb, h)
  {
    var b := Renewed(st, 0, 0);
    forall i | InCluster(b, 0, i)
      ensures i < 3
    {
      assert InCluster(st, 0, i);
    }
  }

  lemma HostReports(h: Host, n: u32, tb: TieBreaker, v: Heuristics, maxRx: u32, h': Host)
    requires Trio(h.core, tb, v) && Open(h.core, 0) && Indexed(Renewed(h.core, 0, 0))
    requires var r := Tested(n, Fail);
             h' == h.(core := HandleMsg(Renewed(h.core, 0, 0), 0, RequestType(r), Said(r), Bytes(r), 0, maxRx))
    ensures Trio(h'.core, tb, Fail) && h'.rx == h.rx
    ensures Ids(h'.core.clusters[0].quorate) == if v == Fail then {3, 4} else {1, 2}
  {
    var r := Tested(n, Fail);
    RenewedTrio(h.core, tb, v);
    TrioReports(Renewed(h.core, 0, 0), tb, v, Said(r), Bytes(r), 0, maxRx);
  }

  lemma TrioTested(es: seq<Input>, n: u32, tb: TieBreaker, v: Heuristics, maxRx: u32)
    requires Trio(Run(es, maxRx).core, tb, v) && Run(es, maxRx).rx[0] == [] && maxRx >= ROOM
    ensures var h := Run(es + [Bytewise(0, Tested(n, Fail))], maxRx);
            && Trio(h.core, tb, Fail) && h.rx[0] == []
            && Ids(h.core.clusters[0].quorate) == if v == Fail then {3, 4} else {1, 2}
  {
    assert Open(Run(es, maxRx).core, 0);
    NextArrives(es, 0, Tested(n, Fail), maxRx);
    HostReports(Run(es, maxRx), n, tb, v, maxRx, Run(es + [Bytewise(0, Tested(n, Fail))], maxRx));
  }

  /** The ids in the quorate list after a run. */
  ghost function RulersAfter(es: seq<Input>, maxRx: u32): (ids: set<u32>) {
    Ids(QuorateAfter(es, maxRx))
  }

  lemma TrioTwice(es: seq<Input>, e: Input, n: u32, tb: TieBreaker, maxRx: u32)
    requires Trio(Run(es, maxRx).core, tb, HeurUndefined) && Run(es, maxRx).rx[0] == [] && maxRx >= ROOM
    requires e == Bytewise(0, Tested(n, Fail))
    ensures RulersAfter(es + [e], maxRx) == Half(0) && RulersAfter(es + [e] + [e], maxRx) == Half(2)
  {
    TrioOnce(es, e, n, tb, HeurUndefined, maxRx);
    TrioOnce(es + [e], e, n, tb, Fail, maxRx);
  }

  lemma TrioOnce(es: seq<Input>, e: Input, n: u32, tb: TieBreaker, v: Heuristics, maxRx: u32)
    requires Trio(Run(es, maxRx).core, tb, v) && Run(es, maxRx).rx[0] == [] && maxRx >= ROOM
    requires e == Bytewise(0, Tested(n, Fail))
    ensures Trio(Run(es + [e], maxRx).core, tb, Fail) && Run(es + [e], maxRx).rx[0] == []
    ensures RulersAfter(es + [e], maxRx) == Half(if v == Fail then 2 else 0)
  {
    TrioTested(es, n, tb, v, maxRx);
  }

  lemma PreludeTrio(tb: TieBreaker, maxRx: u32)
    requires maxRx >= ROOM
    ensures var h := Run(Prelude(tb), maxRx); Trio(h.core, Trimmed(tb), HeurUndefined) && h.rx[0] == []
  {
    PreludeScene(tb, maxRx);
    CastIsTrio(Run(Prelude(tb), maxRx).core, tb);
  }

  /** Whatever the tie-breaker: node 1 reports its failure and its half is quorate; it reports the very
      same failure again, nothing else having happened, and the other half is. */
  lemma SaidTwice(n: u32, tb: TieBreaker, maxRx: u32)
    requires maxRx >= ROOM
    ensures var es := Prelude(tb) + [Bytewise(0, Tested(n, Fail))];
            && RulersAfter(es, maxRx) == {1, 2}
            && RulersAfter(es + [Bytewise(0, Tested(n, Fail))], maxRx) == {3, 4}
  {
    PreludeTrio(tb, maxRx);
    TrioTwice(Prelude(tb), Bytewise(0, Tested(n, Fail)), n, Trimmed(tb), maxRx);
  }
}
