/** Heuristics reports after a split: what the report of a lone half does to the quorate partition, on
    every such state and in runs on bytes, and a run in which the same report sent twice decides
    differently. */
module Setbacks {
  import opened Wire
  import opened Msg
  import opened ServerState
  import opened Stability
  import opened Selection
  import opened SlotOrder
  import opened Merit
  import opened Votes
  import opened Protocol
  import opened Events
  import opened Invariants
  import opened Renaming
  import opened Runs
  import opened Framing
  import opened Requests
  import opened Reports
  import O = Outcomes
  import D = Departures
  import opened TwoSides
  import opened Pairs
  import opened Arrivals

  // ---------------------------------------------------------------- two halves

  /** Nodes `x` and `y`, each alone, as stored. */
  ghost predicate Split(st: State, x: u32, y: u32, tb: TieBreaker) {
    |st.sessions| >= 2 && |st.clusters| > 0 && Sides(st, StoredTrigger(st, 0, false), x, y, tb)
  }

  /** Which of the two becomes quorate, given their heuristics results and who is quorate. */
  ghost predicate SecondWins(st: State, x: u32, y: u32, tb: TieBreaker, hx: Heuristics, hy: Heuristics)
    requires |st.clusters| > 0
  {
    var (qx, qy) := (x in Ids(st.clusters[0].quorate), y in Ids(st.clusters[0].quorate));
    if hx != hy then hx == Fail || hy == Pass
    else if qx != qy && forall k :: InCluster(st, 0, k) ==> st.sessions[k].keepActive then qy
    else match tb.mode
         case Lowest => y < x
         case Highest => y > x
         case ByNodeId => tb.nodeId == y
  }

  lemma SplitView(st: State, slot: nat, h: Heuristics, x: u32, y: u32, tb: TieBreaker)
    requires Split(st, x, y, tb) && slot < 2
    ensures var s' := st.sessions[slot].(heuristics := h);
            && Offers(st, slot, s') && Sides(st, View(slot, s'), x, y, tb)
            && s'.config == Both(x, y) && s'.membership != []
  {
    assert Alone(st, StoredTrigger(st, 0, false), slot, if slot == 0 then x else y, Both(x, y), tb);
  }

  lemma HalfWins(st: State, slot: nat, h: Heuristics, x: u32, y: u32, tb: TieBreaker)
    requires Split(st, x, y, tb) && slot < 2
    ensures var s' := st.sessions[slot].(heuristics := h);
            var hx := if slot == 0 then h else st.sessions[0].heuristics;
            var hy := if slot == 1 then h else st.sessions[1].heuristics;
            && Offers(st, slot, s') && ValidTrigger(st, View(slot, s')) && Stable(st, View(slot, s'))
            && Winner(st, View(slot, s')) == Some(Only(if SecondWins(st, x, y, tb, hx, hy) then y else x))
  {
    var s' := st.sessions[slot].(heuristics := h);
    SplitView(st, slot, h, x, y, tb);
    SidesStable(st, View(slot, s'), x, y, tb);
    TwoHalves(st, View(slot, s'), x, y, tb);
  }

  /** Whatever either half reports, the next quorate partition is the half with the better result; with
      equal results the one that was quorate, unless a member has switched that off; then the
      favourite; then the first slot. */
  lemma HalfReports(st: State, slot: nat, m: Decoded, x: u32, y: u32, tb: TieBreaker, f: seq<byte>, now: nat,
                    maxRx: u32)
    requires Open(st, slot) && Indexed(st) && Split(st, x, y, tb) && slot < 2
    requires m.seqNumberSet && m.heuristics != HeurUndefined
    ensures var b := HandleMsg(st, slot, 16, m, f, now, maxRx);
            var hx := if slot == 0 then m.heuristics else st.sessions[0].heuristics;
            var hy := if slot == 1 then m.heuristics else st.sessions[1].heuristics;
            && |b.clusters| == |st.clusters| && O.Kept(st, b, slot, st.sessions[slot].(heuristics := m.heuristics))
            && b.clusters[0].quorate == Only(if SecondWins(st, x, y, tb, hx, hy) then y else x)
  {
    var s' := st.sessions[slot].(heuristics := m.heuristics);
    SplitView(st, slot, m.heuristics, x, y, tb);
    O.ReportOutcome(st, slot, 16, m, f, now, maxRx);
    HalfWins(st, slot, m.heuristics, x, y, tb);
    StableAsStored(st, slot, s');
  }

  // ---------------------------------------------------------------- two halves, on bytes

  lemma SplitKept(a: State, b: State, slot: nat, s': Session, x: u32, y: u32, tb: TieBreaker)
    requires Split(a, x, y, tb) && slot < 2 && O.Kept(a, b, slot, s') && |b.clusters| == |a.clusters|
    requires Revises(a.sessions[slot], s') && s'.config == a.sessions[slot].config
    requires s'.membership == a.sessions[slot].membership
    ensures Split(b, x, y, tb)
  {
    forall i | 0 <= i < |a.sessions|
      ensures InCluster(b, 0, i) <==> InCluster(a, 0, i)
      ensures b.sessions[i].nodeId == a.sessions[i].nodeId && b.sessions[i].tieBreaker == a.sessions[i].tieBreaker
      ensures b.sessions[i].config == a.sessions[i].config && b.sessions[i].membership == a.sessions[i].membership
    {
      assert i != slot ==> VoteFieldsOnly(a.sessions[i], b.sessions[i]);
    }
  }

  lemma RenewedSplit(st: State, slot: nat, x: u32, y: u32, tb: TieBreaker)
    requires Split(st, x, y, tb) && slot < 2 && Open(st, slot)
    ensures Split(Renewed(st, slot, 0), x, y, tb)
  {
    var b := Renewed(st, slot, 0);
    forall i | 0 <= i < |st.sessions|
      ensures InCluster(b, 0, i) <==> InCluster(st, 0, i)
    {
    }
  }

  /** Nodes `x` and `y` alone, with results `hx` and `hy`. */
  ghost predicate Results(st: State, x: u32, y: u32, tb: TieBreaker, hx: Heuristics, hy: Heuristics) {
    Split(st, x, y, tb) && st.sessions[0].heuristics == hx && st.sessions[1].heuristics == hy
  }

  lemma StateTested(st: State, slot: nat, m: Decoded, x: u32, y: u32, tb: TieBreaker, hx: Heuristics, hy: Heuristics,
                    f: seq<byte>, now: nat, maxRx: u32)
    requires Open(st, slot) && Indexed(st) && Results(st, x, y, tb, hx, hy) && slot < 2
    requires m.seqNumberSet && m.heuristics != HeurUndefined
    ensures var b := HandleMsg(st, slot, 16, m, f, now, maxRx);
            var (vx, vy) := (if slot == 0 then m.heuristics else hx, if slot == 1 then m.heuristics else hy);
            && Results(b, x, y, tb, vx, vy)
            && (vx != vy ==> b.clusters[0].quorate == Only(if vx == Fail || vy == Pass then y else x))
  {
    HalfReports(st, slot, m, x, y, tb, f, now, maxRx);
    var b := HandleMsg(st, slot, 16, m, f, now, maxRx);
    SplitKept(st, b, slot, st.sessions[slot].(heuristics := m.heuristics), x, y, tb);
    assert VoteFieldsOnly(st.sessions[1 - slot], b.sessions[1 - slot]);
  }

  /** The same with nothing left to read from either. */
  ghost predicate Parted(h: Host, x: u32, y: u32, tb: TieBreaker, hx: Heuristics, hy: Heuristics) {
    Results(h.core, x, y, tb, hx, hy) && |h.rx| >= 2 && h.rx[0] == [] && h.rx[1] == []
  }

  lemma HostTested(h: Host, slot: nat, r: Request, x: u32, y: u32, tb: TieBreaker, hx: Heuristics, hy: Heuristics,
                   maxRx: u32, h': Host)
    requires Parted(h, x, y, tb, hx, hy) && slot < 2 && r.Tested? && r.result != HeurUndefined
    requires Open(h.core, slot) && Indexed(Renewed(h.core, slot, 0))
    requires h' == h.(core := HandleMsg(Renewed(h.core, slot, 0), slot, RequestType(r), Said(r), Bytes(r), 0, maxRx))
    ensures var (vx, vy) := (if slot == 0 then r.result else hx, if slot == 1 then r.result else hy);
            && Parted(h', x, y, tb, vx, vy)
            && (vx != vy ==> h'.core.clusters[0].quorate == Only(if vx == Fail || vy == Pass then y else x))
  {
    RenewedSplit(h.core, slot, x, y, tb);
    StateTested(Renewed(h.core, slot, 0), slot, Said(r), x, y, tb, hx, hy, Bytes(r), 0, maxRx);
  }

  /** One half reports a result. */
  lemma HalfTested(es: seq<Input>, slot: nat, n: u32, v: Heuristics, x: u32, y: u32, tb: TieBreaker,
                   hx: Heuristics, hy: Heuristics, maxRx: u32)
    requires Parted(Run(es, maxRx), x, y, tb, hx, hy) && slot < 2 && v != HeurUndefined && maxRx >= ROOM
    ensures var h := Run(es + [Bytewise(slot, Tested(n, v))], maxRx);
            var (vx, vy) := (if slot == 0 then v else hx, if slot == 1 then v else hy);
            && Parted(h, x, y, tb, vx, vy)
            && (vx != vy ==> h.core.clusters[0].quorate == Only(if vx == Fail || vy == Pass then y else x))
  {
    assert Open(Run(es, maxRx).core, slot);
    NextArrives(es, slot, Tested(n, v), maxRx);
    HostTested(Run(es, maxRx), slot, Tested(n, v), x, y, tb, hx, hy, maxRx,
               Run(es + [Bytewise(slot, Tested(n, v))], maxRx));
  }

  lemma LonersStay(st: State, x: u32, y: u32, tb: TieBreaker, f: seq<byte>, maxRx: u32)
    requires Cast(st, [Loner(x, tb, Both(x, y)), Loner(y, tb, Both(x, y))], Club(2)) && Indexed(st) && x != y
    ensures Open(st, 0)
    ensures Results(HandleMsg(st, 0, NODE_LIST, Said(Configured(ChangedConfig, x, y)), f, 0, maxRx),
                    x, y, Trimmed(tb), HeurUndefined, HeurUndefined)
  {
    var m := Said(Configured(ChangedConfig, x, y));
    LonersAreSides(st, Club(2), x, y, tb);
    ListIds(x, y);
    assert Plain(st.sessions[0]) == Loner(x, tb, Both(x, y)) && Plain(st.sessions[1]) == Loner(y, tb, Both(x, y));
    O.ReportOutcome(st, 0, 10, m, f, 0, maxRx);
    var b := HandleMsg(st, 0, 10, m, f, 0, maxRx);
    SplitKept(st, b, 0, O.Revised(st.sessions[0], 10, m), x, y, Trimmed(tb));
    assert VoteFieldsOnly(st.sessions[1], b.sessions[1]);
  }

  /** The run of `PartingDecided`. */
  function Decision(x: u32, y: u32, tb: TieBreaker): (es: seq<Input>) {
    Parting(x, y, tb) + [Bytewise(0, Configured(ChangedConfig, x, y))]
  }

  lemma PartingParts(x: u32, y: u32, tb: TieBreaker, maxRx: u32)
    requires x != y && maxRx >= ROOM
    ensures Parted(Run(Decision(x, y, tb), maxRx), x, y, Trimmed(tb), HeurUndefined, HeurUndefined)
  {
    PartingScene(x, y, tb, maxRx);
    SceneParted(Parting(x, y, tb), x, y, tb, maxRx);
  }

  lemma SceneParted(es: seq<Input>, x: u32, y: u32, tb: TieBreaker, maxRx: u32)
    requires Scene(es, [Loner(x, tb, Both(x, y)), Loner(y, tb, Both(x, y))], Club(2), maxRx)
    requires x != y && maxRx >= ROOM
    ensures Parted(Run(es + [Bytewise(0, Configured(ChangedConfig, x, y))], maxRx), x, y, Trimmed(tb), HeurUndefined,
                   HeurUndefined)
  {
    var r := Configured(ChangedConfig, x, y);
    var st := SceneStep(es, [Loner(x, tb, Both(x, y)), Loner(y, tb, Both(x, y))], Club(2), 0, r, maxRx);
    LonersStay(st, x, y, tb, Bytes(r), maxRx);
  }

  /** The quorate list of the first cluster after a run. */
  ghost function QuorateAfter(es: seq<Input>, maxRx: u32): (l: NodeList) {
    Run(es, maxRx).core.clusters[0].quorate
  }

  lemma BackAndForth(es: seq<Input>, k: nat, x: u32, y: u32, tb: TieBreaker, maxRx: u32)
    requires Parted(Run(es, maxRx), x, y, tb, HeurUndefined, HeurUndefined) && k < 2 && maxRx >= ROOM
    ensures var es1 := es + [Bytewise(k, Tested(2, Fail))];
            && QuorateAfter(es1, maxRx) == Only(if k == 0 then y else x)
            && QuorateAfter(es1 + [Bytewise(k, Tested(3, Pass))], maxRx) == Only(if k == 0 then x else y)
  {
    var (hx, hy) := if k == 0 then (Fail, HeurUndefined) else (HeurUndefined, Fail);
    HalfFails(es, k, x, y, tb, hx, hy, maxRx);
    HalfRecovers(es + [Bytewise(k, Tested(2, Fail))], k, x, y, tb, hx, hy, maxRx);
  }

  lemma HalfFails(es: seq<Input>, k: nat, x: u32, y: u32, tb: TieBreaker, hx: Heuristics, hy: Heuristics, maxRx: u32)
    requires Parted(Run(es, maxRx), x, y, tb, HeurUndefined, HeurUndefined) && k < 2 && maxRx >= ROOM
    requires hx == (if k == 0 then Fail else HeurUndefined) && hy == (if k == 1 then Fail else HeurUndefined)
    ensures Parted(Run(es + [Bytewise(k, Tested(2, Fail))], maxRx), x, y, tb, hx, hy)
    ensures QuorateAfter(es + [Bytewise(k, Tested(2, Fail))], maxRx) == Only(if k == 0 then y else x)
  {
    HalfTested(es, k, 2, Fail, x, y, tb, HeurUndefined, HeurUndefined, maxRx);
  }

  lemma HalfRecovers(es: seq<Input>, k: nat, x: u32, y: u32, tb: TieBreaker, hx: Heuristics, hy: Heuristics, maxRx: u32)
    requires Parted(Run(es, maxRx), x, y, tb, hx, hy) && k < 2 && maxRx >= ROOM
    requires hx == (if k == 0 then Fail else HeurUndefined) && hy == (if k == 1 then Fail else HeurUndefined)
    ensures QuorateAfter(es + [Bytewise(k, Tested(3, Pass))], maxRx) == Only(if k == 0 then x else y)
  {
    HalfTested(es, k, 3, Pass, x, y, tb, hx, hy, maxRx);
  }

  /** Once one half is quorate, a failure it reports makes the other half quorate, and its next success
      makes it quorate again: whatever the nodes and their tie-breaker. */
  lemma FailureMoves(x: u32, y: u32, tb: TieBreaker, maxRx: u32)
    requires x != y && maxRx >= ROOM
    ensures var es, e := Decision(x, y, tb), Elected(x, y, tb);
            var (k, o) := if e == x then (0, y) else (1, x);
            var es1 := es + [Bytewise(k, Tested(2, Fail))];
            && QuorateAfter(es, maxRx) == Only(e)
            && QuorateAfter(es1, maxRx) == Only(o)
            && QuorateAfter(es1 + [Bytewise(k, Tested(3, Pass))], maxRx) == Only(e)
  {
    PartingDecided(x, y, tb, maxRx);
    PartingParts(x, y, tb, maxRx);
    BackAndForth(Decision(x, y, tb), if Elected(x, y, tb) == x then 0 else 1, x, y, Trimmed(tb), maxRx);
  }

  // ---------------------------------------------------------------- a half that leaves

  lemma LastTakes(st: State, slot: nat, x: u32, y: u32, tb: TieBreaker, i: int)
    requires Split(st, x, y, tb) && slot < 2 && ValidTrigger(st, StoredTrigger(st, slot, true))
    ensures Takes(st, StoredTrigger(st, slot, true), i) <==> i == 1 - slot
    ensures var tv := StoredTrigger(st, slot, true);
            && st.sessions[1 - slot].nodeId == (if slot == 0 then y else x) && st.sessions[1 - slot].tieBreaker == tb
            && EffConfig(st, tv, 1 - slot) == Both(x, y)
            && EffMembership(st, tv, 1 - slot) == Only(if slot == 0 then y else x)
  {
    assert Alone(st, StoredTrigger(st, 0, false), 0, x, Both(x, y), tb);
    assert Alone(st, StoredTrigger(st, 0, false), 1, y, Both(x, y), tb);
  }

  /** Only one half is left, and it wins. */
  lemma LastHalf(st: State, slot: nat, x: u32, y: u32, tb: TieBreaker)
    requires Split(st, x, y, tb) && slot < 2
    ensures var tv := StoredTrigger(st, slot, true);
            && ValidTrigger(st, tv) && Stable(st, tv)
            && Winner(st, tv) == Some(Only(if slot == 0 then y else x))
  {
    var tv, o := StoredTrigger(st, slot, true), 1 - slot;
    assert Alone(st, StoredTrigger(st, 0, false), slot, if slot == 0 then x else y, Both(x, y), tb);
    forall i
      ensures Takes(st, tv, i) <==> i == o
    {
      LastTakes(st, slot, x, y, tb, i);
    }
    LastTakes(st, slot, x, y, tb, o);
    var id := if slot == 0 then y else x;
    ListIds(x, y);
    ListIds(id, id);
    assert id in Ids(Only(id)) && id in Ids(Both(x, y));
    LastPartition(st, tv, o, tb);
    assert Candidate(st, tv, o);
    HalfPrevails(st, tv, o);
  }

  lemma LastPartition(st: State, tv: Trigger, o: nat, tb: TieBreaker)
    requires ValidTrigger(st, tv) && o < |st.sessions| && (forall i :: Takes(st, tv, i) <==> i == o)
    requires DistinctIds(st, TriggerCluster(st, tv)) && WellListed(st, tv, o)
    requires Has(EffMembership(st, tv, o), st.sessions[o].nodeId)
    ensures Stable(st, tv) && Partitioned(st, tv)
  {
  }

  lemma TwoMembers(st: State, x: u32, y: u32, tb: TieBreaker)
    requires Split(st, x, y, tb) && Book(st)
    ensures st.clusters[0].members >= 2
  {
    assert Alone(st, StoredTrigger(st, 0, false), 0, x, Both(x, y), tb);
    assert Alone(st, StoredTrigger(st, 0, false), 1, y, Both(x, y), tb);
    assert RecordOk(st, 0) && {0, 1} <= Members(st, 0);
    CardinalityUpTo({0, 1}, Members(st, 0));
  }

  lemma CardinalityUpTo(a: set<int>, b: set<int>)
    requires a <= b
    ensures |a| <= |b|
  {
    assert b == a + (b - a) && a !! (b - a);
  }

  lemma HalfLeaves(st: State, slot: nat, x: u32, y: u32, tb: TieBreaker)
    requires Split(st, x, y, tb) && Book(st) && Open(st, slot) && Indexed(st) && slot < 2
    ensures CloseSlot(st, slot).clusters[0].quorate == Only(if slot == 0 then y else x)
  {
    assert Alone(st, StoredTrigger(st, 0, false), slot, if slot == 0 then x else y, Both(x, y), tb);
    LastHalf(st, slot, x, y, tb);
    TwoMembers(st, x, y, tb);
    D.DepartureOutcome(st, slot, false);
  }

  /** When the half that is quorate loses its client, the other half becomes quorate. */
  lemma DepartureMoves(x: u32, y: u32, tb: TieBreaker, maxRx: u32)
    requires x != y && maxRx >= ROOM
    ensures var es, e := Decision(x, y, tb), Elected(x, y, tb);
            var (k, o) := if e == x then (0, y) else (1, x);
            && QuorateAfter(es, maxRx) == Only(e)
            && QuorateAfter(es + [Disconnected(k)], maxRx) == Only(o)
  {
    var es := Decision(x, y, tb);
    var k := if Elected(x, y, tb) == x then 0 else 1;
    PartingDecided(x, y, tb, maxRx);
    PartingParts(x, y, tb, maxRx);
    HalfGone(es, k, x, y, Trimmed(tb), HeurUndefined, HeurUndefined, maxRx);
  }

  lemma HalfGone(es: seq<Input>, k: nat, x: u32, y: u32, tb: TieBreaker, hx: Heuristics, hy: Heuristics, maxRx: u32)
    requires Parted(Run(es, maxRx), x, y, tb, hx, hy) && k < 2
    ensures QuorateAfter(es + [Disconnected(k)], maxRx) == Only(if k == 0 then y else x)
  {
    RunInv(es, maxRx);
    RunMore(es, Disconnected(k), maxRx);
    HostGone(Run(es, maxRx), k, x, y, tb, hx, hy);
  }

  lemma HostGone(h: Host, k: nat, x: u32, y: u32, tb: TieBreaker, hx: Heuristics, hy: Heuristics)
    requires Ready(h) && h.pending == [] && !h.processing && Book(h.core) && Parted(h, x, y, tb, hx, hy) && k < 2
    ensures |OnDisconnected(h, k).core.clusters| > 0
    ensures OnDisconnected(h, k).core.clusters[0].quorate == Only(if k == 0 then y else x)
  {
    assert Open(h.core, k) by {
      assert Alone(h.core, StoredTrigger(h.core, 0, false), k, if k == 0 then x else y, Both(x, y), tb);
    }
    OneGone(h, k);
    HalfLeaves(h.core, k, x, y, tb);
  }

  lemma OneGone(h: Host, k: nat)
    requires Ready(h) && h.pending == [] && !h.processing && Open(h.core, k)
    ensures OnDisconnected(h, k).core == CloseSlot(h.core, k)
  {
  }
}
