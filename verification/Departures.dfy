/** What the end of a session leads to. The algorithm runs once more without the leaving client; in the
    statistics of its partition, though, that client still counts as connected. */
module Departures {
  import opened Wire
  import opened Msg
  import opened ServerState
  import opened Stability
  import opened Selection
  import opened SlotOrder
  import opened Merit
  import opened Votes
  import opened Protocol
  import opened Events
  import opened Effects
  import O = Outcomes

  /** Another node of the cluster that the session in `slot` leaves. */
  predicate Stays(st: State, slot: nat, i: int)
    requires slot < |st.sessions|
  {
    InCluster(st, st.sessions[slot].cluster, i) && st.sessions[i].nodeId != st.sessions[slot].nodeId
  }

  /** The cluster record once one member has left: cleared with the last one. */
  function Left(cl: Cluster, state: FfCluster, quorate: NodeList): (r: Cluster) {
    if cl.members <= 1 then NoCluster else cl.(members := cl.members - 1, state := state, quorate := quorate)
  }

  /** Those who stay are told the decision for the list `l`, and nobody else is. */
  ghost predicate StayersTold(a: State, b: State, slot: nat, l: NodeList)
    requires slot < |a.sessions|
  {
    && |b.sessions| == |a.sessions| && a.out <= b.out
    && (forall i :: 0 <= i < |a.sessions| && !Stays(a, slot, i) ==> NewVotes(a, b, i) == [])
    && (forall i :: 0 <= i < |a.sessions| && !InCluster(a, a.sessions[slot].cluster, i) ==>
          b.sessions[i].poll == a.sessions[i].poll)
    && var losers := exists i :: Stays(a, slot, i) && a.sessions[i].nodeId !in Ids(l);
       forall i :: Stays(a, slot, i) ==> O.VotedAt(a, b, Ids(l), losers, i)
  }

  ghost predicate NobodyTold(a: State, b: State, slot: nat) {
    && |b.sessions| == |a.sessions| && a.out <= b.out
    && forall i :: 0 <= i < |a.sessions| ==>
         NewVotes(a, b, i) == [] && (i != slot ==> b.sessions[i].poll == a.sessions[i].poll)
  }

  lemma StaysTakes(st: State, slot: nat, i: int)
    requires slot < |st.sessions| && ValidTrigger(st, StoredTrigger(st, slot, true))
    ensures Stays(st, slot, i) <==> Takes(st, StoredTrigger(st, slot, true), i)
  {
  }

  /** The end of an active session. While those who stay do not agree, nobody is told anything and the
      cluster waits; otherwise the best partition of those who stay becomes quorate. */
  lemma DepartureOutcome(st: State, slot: nat, evict: bool)
    requires Open(st, slot) && Indexed(st) && st.sessions[slot].phase == Active
    ensures var b := Ended(st, slot, evict);
            var (c, tv) := (st.sessions[slot].cluster, StoredTrigger(st, slot, true));
            && ValidTrigger(st, tv) && |b.sessions| == |st.sessions|
            && if !Stable(st, tv) then
                 && NobodyTold(st, b, slot)
                 && b.clusters[c] == Left(st.clusters[c], WaitingForStable, st.clusters[c].quorate)
               else
                 && StayersTold(st, b, slot, O.ListOf(Winner(st, tv)))
                 && b.clusters[c] == Left(st.clusters[c], b.clusters[c].state, O.ListOf(Winner(st, tv)))
  {
    var tv := StoredTrigger(st, slot, true);
    if Stable(st, tv) {
      StableDeparture(st, slot, evict);
    } else {
      UnstableDeparture(st, slot, evict);
    }
  }

  lemma UnstableDeparture(st: State, slot: nat, evict: bool)
    requires Open(st, slot) && Indexed(st) && st.sessions[slot].phase == Active
    requires !Stable(st, StoredTrigger(st, slot, true))
    ensures var b := Ended(st, slot, evict);
            var c := st.sessions[slot].cluster;
            && NobodyTold(st, b, slot)
            && b.clusters[c] == Left(st.clusters[c], WaitingForStable, st.clusters[c].quorate)
  {
    var b := Ended(st, slot, evict);
    CloseIsCalm(st, slot, evict);
    forall i | 0 <= i < |st.sessions|
      ensures NewVotes(st, b, i) == [] && (i != slot ==> b.sessions[i].poll == st.sessions[i].poll)
    {
    }
  }

  lemma StableDeparture(st: State, slot: nat, evict: bool)
    requires Open(st, slot) && Indexed(st) && st.sessions[slot].phase == Active
    requires Stable(st, StoredTrigger(st, slot, true))
    ensures var b := Ended(st, slot, evict);
            var (c, tv) := (st.sessions[slot].cluster, StoredTrigger(st, slot, true));
            && StayersTold(st, b, slot, O.ListOf(Winner(st, tv)))
            && b.clusters[c] == Left(st.clusters[c], b.clusters[c].state, O.ListOf(Winner(st, tv)))
  {
    var tv := StoredTrigger(st, slot, true);
    var w := Winner(st, tv);
    DecisionEffect(st, tv, w);
    DepartureTold(st, slot, w, FfsplitDo(st, tv).0, Ended(st, slot, evict), evict);
    DepartureRecord(st, slot, w, FfsplitDo(st, tv).0, evict);
  }

  lemma DepartureRecord(st: State, slot: nat, w: Option<NodeList>, st1: State, evict: bool)
    requires Open(st, slot) && Indexed(st) && st.sessions[slot].phase == Active
    requires DecisionShape(st, StoredTrigger(st, slot, true), w, st1)
    requires st1 == FfsplitDo(st, StoredTrigger(st, slot, true)).0
    ensures var (b, c) := (Ended(st, slot, evict), st.sessions[slot].cluster);
            b.clusters[c] == Left(st.clusters[c], b.clusters[c].state, O.ListOf(w))
  {
    var c := st.sessions[slot].cluster;
    assert st1.clusters[c] == st.clusters[c].(quorate := O.ListOf(w), state := st1.clusters[c].state);
  }

  lemma DepartureTold(st: State, slot: nat, w: Option<NodeList>, st1: State, b: State, evict: bool)
    requires Open(st, slot) && Indexed(st) && st.sessions[slot].phase == Active
    requires DecisionShape(st, StoredTrigger(st, slot, true), w, st1)
    requires st1 == FfsplitDo(st, StoredTrigger(st, slot, true)).0
    requires b == Ended(st, slot, evict)
    ensures StayersTold(st, b, slot, O.ListOf(w))
  {
    StayLosers(st, slot, w);
    assert |b.sessions| == |st.sessions|;
    forall i | 0 <= i < |st.sessions|
      ensures st.out <= b.out
      ensures !Stays(st, slot, i) ==> NewVotes(st, b, i) == []
      ensures !InCluster(st, st.sessions[slot].cluster, i) ==> b.sessions[i].poll == st.sessions[i].poll
      ensures Stays(st, slot, i)
              ==> O.VotedAt(st, b, Ids(O.ListOf(w)), AnyLoser(st, StoredTrigger(st, slot, true), w), i)
    {
      StayerVoted(st, slot, w, st1, b, evict, i);
    }
  }

  lemma StayerVoted(st: State, slot: nat, w: Option<NodeList>, st1: State, b: State, evict: bool, i: nat)
    requires Open(st, slot) && Indexed(st) && st.sessions[slot].phase == Active && i < |st.sessions|
    requires DecisionShape(st, StoredTrigger(st, slot, true), w, st1)
    requires st1 == FfsplitDo(st, StoredTrigger(st, slot, true)).0
    requires b == Ended(st, slot, evict)
    ensures st.out <= b.out && (!Stays(st, slot, i) ==> NewVotes(st, b, i) == [])
    ensures !InCluster(st, st.sessions[slot].cluster, i) ==> b.sessions[i].poll == st.sessions[i].poll
    ensures Stays(st, slot, i)
            ==> O.VotedAt(st, b, Ids(O.ListOf(w)), AnyLoser(st, StoredTrigger(st, slot, true), w), i)
  {
    DepartureAt(st, slot, w, st1, b, evict, i);
    StaysTakes(st, slot, i);
    if Stays(st, slot, i) {
      O.NewsIsVote(st, StoredTrigger(st, slot, true), w, b, i);
    }
  }

  lemma DepartureAt(st: State, slot: nat, w: Option<NodeList>, st1: State, b: State, evict: bool, i: nat)
    requires Open(st, slot) && Indexed(st) && st.sessions[slot].phase == Active && i < |st.sessions|
    requires DecisionShape(st, StoredTrigger(st, slot, true), w, st1)
    requires st1 == FfsplitDo(st, StoredTrigger(st, slot, true)).0
    requires b == Ended(st, slot, evict)
    ensures st.out <= b.out && NewVotes(st, b, i) == DecisionNews(st, StoredTrigger(st, slot, true), w, i)
    ensures i != slot ==> b.sessions[i] == Decided(st, StoredTrigger(st, slot, true), w, i)
  {
    DecisionVotes(st, StoredTrigger(st, slot, true), w, st1, i);
    if evict {
      AnswerVotes(st, st1, b, Close(slot), i);
    }
  }

  lemma StayLosers(st: State, slot: nat, w: Option<NodeList>)
    requires slot < |st.sessions| && ValidTrigger(st, StoredTrigger(st, slot, true))
    ensures AnyLoser(st, StoredTrigger(st, slot, true), w)
            <==> exists i :: Stays(st, slot, i) && st.sessions[i].nodeId !in Ids(O.ListOf(w))
  {
    O.WinsIsIn(w);
    forall i
      ensures Stays(st, slot, i) <==> Takes(st, StoredTrigger(st, slot, true), i)
    {
      StaysTakes(st, slot, i);
    }
  }

  // ---------------------------------------------------------------- as if it had gone already

  function Gone(st: State, slot: nat): (r: State)
    requires slot < |st.sessions|
  {
    SetSession(st, slot, FreshSession)
  }

  /** The session in `slot` is about to leave a cluster of distinct nodes, one of which, in slot `j`,
      stays. */
  ghost predicate Leaving(st: State, slot: nat, j: nat) {
    && slot < |st.sessions| && j < |st.sessions| && InCluster(st, st.sessions[slot].cluster, slot)
    && 0 <= st.sessions[slot].cluster < |st.clusters|
    && Stays(st, slot, j) && DistinctIds(st, st.sessions[slot].cluster)
  }

  /** Client `i` looks the same in both. */
  predicate SameLook(a: State, av: Trigger, b: State, bv: Trigger, i: nat)
    requires i < |a.sessions| && i < |b.sessions|
  {
    && EffConfig(a, av, i) == EffConfig(b, bv, i) && EffMembership(a, av, i) == EffMembership(b, bv, i)
    && EffRing(a, av, i) == EffRing(b, bv, i) && EffHeuristics(a, av, i) == EffHeuristics(b, bv, i)
    && a.sessions[i] == b.sessions[i]
  }

  /** The view of the leaving client, and that of one who stays once it has gone. */
  lemma GoneViews(st: State, slot: nat, j: nat)
    requires Leaving(st, slot, j)
    ensures var (g, tv, gv) := (Gone(st, slot), StoredTrigger(st, slot, true), StoredTrigger(Gone(st, slot), j, false));
            && ValidTrigger(st, tv) && ValidTrigger(g, gv) && TriggerCluster(g, gv) == TriggerCluster(st, tv)
            && (forall i :: Takes(g, gv, i) <==> Takes(st, tv, i)) && !Takes(st, tv, slot)
            && (forall i :: 0 <= i < |st.sessions| && i != slot ==> SameLook(st, tv, g, gv, i))
            && (forall c, i :: i != slot ==> (InCluster(g, c, i) <==> InCluster(st, c, i)))
            && (forall c :: !InCluster(g, c, slot))
  {
  }

  /** Whether those who stay agree does not depend on it. */
  lemma StableAsGone(st: State, slot: nat, j: nat)
    requires Leaving(st, slot, j)
    ensures ValidTrigger(st, StoredTrigger(st, slot, true))
    ensures ValidTrigger(Gone(st, slot), StoredTrigger(Gone(st, slot), j, false))
    ensures Stable(Gone(st, slot), StoredTrigger(Gone(st, slot), j, false))
            <==> Stable(st, StoredTrigger(st, slot, true))
  {
    GoneViews(st, slot, j);
    var (g, tv, gv) := (Gone(st, slot), StoredTrigger(st, slot, true), StoredTrigger(Gone(st, slot), j, false));
    forall i, k | Takes(st, tv, i) && Takes(st, tv, k)
      ensures Agrees(g, gv, i, k) <==> Agrees(st, tv, i, k)
      ensures FirstOfId(g, gv, k) <==> FirstOfId(st, tv, k)
      ensures EffConfig(g, gv, i) == EffConfig(st, tv, i) && EffConfig(g, gv, k) == EffConfig(st, tv, k)
    {
      assert SameLook(st, tv, g, gv, i) && SameLook(st, tv, g, gv, k);
      FirstAsGone(st, slot, j, k);
    }
  }

  lemma FirstAsGone(st: State, slot: nat, j: nat, k: nat)
    requires Leaving(st, slot, j) && k < |st.sessions|
    requires ValidTrigger(st, StoredTrigger(st, slot, true)) && Takes(st, StoredTrigger(st, slot, true), k)
    requires ValidTrigger(Gone(st, slot), StoredTrigger(Gone(st, slot), j, false))
    ensures FirstOfId(Gone(st, slot), StoredTrigger(Gone(st, slot), j, false), k)
            <==> FirstOfId(st, StoredTrigger(st, slot, true), k)
  {
    GoneViews(st, slot, j);
  }

  /** In the partition of one who stays, the leaving client still counts as connected. */
  lemma CrowdAsGone(st: State, slot: nat, j: nat, i: nat)
    requires Leaving(st, slot, j) && Stays(st, slot, i)
    ensures var (g, tv, gv) := (Gone(st, slot), StoredTrigger(st, slot, true), StoredTrigger(Gone(st, slot), j, false));
            && slot !in Crowd(g, gv, i)
            && Crowd(st, tv, i) == Crowd(g, gv, i) + (if Has(st.sessions[i].membership, st.sessions[slot].nodeId)
                                                      then {slot} else {})
  {
    GoneViews(st, slot, j);
    assert SameLook(st, StoredTrigger(st, slot, true), Gone(st, slot), StoredTrigger(Gone(st, slot), j, false), i);
  }

  /** One who stays is weighed as if the leaving client had gone already if and only if its partition
      does not list that client. */
  lemma WeighedAsGoneIff(st: State, slot: nat, j: nat, i: nat)
    requires Leaving(st, slot, j) && Stays(st, slot, i) && DuplicateFree(st.sessions[i].membership)
    ensures var (g, tv, gv) := (Gone(st, slot), StoredTrigger(st, slot, true), StoredTrigger(Gone(st, slot), j, false));
            CandidateStats(g, gv, i) == CandidateStats(st, tv, i)
            <==> !Has(st.sessions[i].membership, st.sessions[slot].nodeId)
  {
    var (g, tv, gv) := (Gone(st, slot), StoredTrigger(st, slot, true), StoredTrigger(Gone(st, slot), j, false));
    GoneViews(st, slot, j);
    assert SameLook(st, tv, g, gv, i);
    CrowdIsCounted(st, tv, i);
    assert DistinctIds(g, st.sessions[i].cluster);
    CrowdIsCounted(g, gv, i);
    CrowdAsGone(st, slot, j, i);
    if !Has(st.sessions[i].membership, st.sessions[slot].nodeId) {
      forall v
        ensures Saying(st, tv, i, v) == Saying(g, gv, i, v)
      {
        SayingAsGone(st, slot, j, i, v);
      }
    }
  }

  lemma SayingAsGone(st: State, slot: nat, j: nat, i: nat, v: Heuristics)
    requires Leaving(st, slot, j) && Stays(st, slot, i)
    requires !Has(st.sessions[i].membership, st.sessions[slot].nodeId)
    ensures Saying(st, StoredTrigger(st, slot, true), i, v)
            == Saying(Gone(st, slot), StoredTrigger(Gone(st, slot), j, false), i, v)
  {
    var (g, tv, gv) := (Gone(st, slot), StoredTrigger(st, slot, true), StoredTrigger(Gone(st, slot), j, false));
    GoneViews(st, slot, j);
    CrowdAsGone(st, slot, j, i);
    forall k | k in Crowd(st, tv, i)
      ensures SameLook(st, tv, g, gv, k)
    {
    }
  }

  /** Nobody who stays lists the leaving client, and it is not the only one against keeping the quorate
      partition. */
  ghost predicate Unmissed(st: State, slot: nat)
    requires slot < |st.sessions|
  {
    && (forall i :: Stays(st, slot, i) ==> !Has(st.sessions[i].membership, st.sessions[slot].nodeId))
    && (st.sessions[slot].keepActive || exists i :: Stays(st, slot, i) && !st.sessions[i].keepActive)
  }

  lemma {:induction false} SeatAsGone(st: State, slot: nat, c: int, id: u32, k: nat)
    requires slot < |st.sessions| && id != st.sessions[slot].nodeId && k <= |st.sessions|
    ensures FirstActive(Gone(st, slot), c, id, k) == FirstActive(st, c, id, k)
  {
    if k > 0 {
      SeatAsGone(st, slot, c, id, k - 1);
    }
  }

  lemma {:induction false} StatsAsGone(st: State, slot: nat, i: nat, mem: NodeList, n: nat, h: Heuristics)
    requires slot < |st.sessions| && i < |st.sessions| && i != slot && n <= |mem|
    requires !Has(mem, st.sessions[slot].nodeId)
    ensures StatsUpTo(Gone(st, slot), i, mem, n, h) == StatsUpTo(st, i, mem, n, h)
  {
    if n > 0 {
      var c, id := st.sessions[i].cluster, mem[n - 1].nodeId;
      StatsAsGone(st, slot, i, mem, n - 1, h);
      SeatAsGone(st, slot, c, id, |st.sessions|);
      FirstActiveFinds(st, c, id, |st.sessions|);
    }
  }

  lemma CandidateAsGone(st: State, slot: nat, j: nat, i: nat)
    requires Leaving(st, slot, j) && Unmissed(st, slot) && Stays(st, slot, i)
    ensures CandidateStats(Gone(st, slot), StoredTrigger(Gone(st, slot), j, false), i)
            == CandidateStats(st, StoredTrigger(st, slot, true), i)
  {
    GoneViews(st, slot, j);
    assert SameLook(st, StoredTrigger(st, slot, true), Gone(st, slot), StoredTrigger(Gone(st, slot), j, false), i);
    var mem := st.sessions[i].membership;
    StatsAsGone(st, slot, i, mem, |mem|, st.sessions[i].heuristics);
  }

  lemma KeptAsGone(st: State, slot: nat, j: nat)
    requires Leaving(st, slot, j) && Unmissed(st, slot)
    ensures KeepActive(Gone(st, slot), st.sessions[slot].cluster) <==> KeepActive(st, st.sessions[slot].cluster)
  {
    var g, c := Gone(st, slot), st.sessions[slot].cluster;
    GoneViews(st, slot, j);
    forall i | InCluster(g, c, i)
      ensures g.sessions[i].keepActive == st.sessions[i].keepActive && InCluster(st, c, i)
    {
    }
    if KeepActive(g, c) {
      forall i | Stays(st, slot, i)
        ensures st.sessions[i].keepActive
      {
        assert InCluster(g, c, i);
      }
    }
  }

  lemma BetterAsGone(st: State, slot: nat, j: nat, i: nat, best: Option<nat>)
    requires Leaving(st, slot, j) && Unmissed(st, slot)
    requires ValidTrigger(st, StoredTrigger(st, slot, true))
    requires ValidTrigger(Gone(st, slot), StoredTrigger(Gone(st, slot), j, false))
    requires Candidate(st, StoredTrigger(st, slot, true), i)
    requires Candidate(Gone(st, slot), StoredTrigger(Gone(st, slot), j, false), i)
    requires best.Some? ==> best.value < |st.sessions| && Candidate(st, StoredTrigger(st, slot, true), best.value)
    ensures Better(Gone(st, slot), StoredTrigger(Gone(st, slot), j, false), i, best)
            <==> Better(st, StoredTrigger(st, slot, true), i, best)
  {
    var (g, tv, gv) := (Gone(st, slot), StoredTrigger(st, slot, true), StoredTrigger(Gone(st, slot), j, false));
    GoneViews(st, slot, j);
    StaysTakes(st, slot, i);
    assert SameLook(st, tv, g, gv, i);
    CandidateAsGone(st, slot, j, i);
    if best.Some? {
      StaysTakes(st, slot, best.value);
      assert SameLook(st, tv, g, gv, best.value);
      CandidateAsGone(st, slot, j, best.value);
    }
    KeptAsGone(st, slot, j);
  }

  lemma TakesOverAsGone(st: State, slot: nat, j: nat, tv: Trigger, g: State, gv: Trigger, k: nat, best: Option<nat>)
    requires Leaving(st, slot, j) && Unmissed(st, slot) && 0 < k <= |st.sessions| == |g.sessions|
    requires tv == StoredTrigger(st, slot, true) && g == Gone(st, slot) && gv == StoredTrigger(g, j, false)
    requires ValidTrigger(st, tv) && ValidTrigger(g, gv)
    requires best.Some? ==> best.value < |st.sessions| && Candidate(st, tv, best.value)
    ensures TakesOver(g, gv, k, best) <==> TakesOver(st, tv, k, best)
  {
    CandidacyAsGone(st, slot, j, tv, g, gv, k - 1);
    if Candidate(st, tv, k - 1) {
      BetterAsGone(st, slot, j, k - 1, best);
    }
  }

  lemma CandidacyAsGone(st: State, slot: nat, j: nat, tv: Trigger, g: State, gv: Trigger, i: nat)
    requires Leaving(st, slot, j) && i < |st.sessions| == |g.sessions|
    requires tv == StoredTrigger(st, slot, true) && g == Gone(st, slot) && gv == StoredTrigger(g, j, false)
    requires ValidTrigger(st, tv) && ValidTrigger(g, gv)
    ensures Candidate(g, gv, i) <==> Candidate(st, tv, i)
  {
    GoneViews(st, slot, j);
    if Takes(st, tv, i) {
      assert SameLook(st, tv, g, gv, i);
    }
  }

  lemma WalkNext(st: State, slot: nat, j: nat, tv: Trigger, g: State, gv: Trigger, k: nat)
    requires Leaving(st, slot, j) && Unmissed(st, slot) && 0 < k <= |st.sessions| == |g.sessions|
    requires tv == StoredTrigger(st, slot, true) && g == Gone(st, slot) && gv == StoredTrigger(g, j, false)
    requires ValidTrigger(st, tv) && ValidTrigger(g, gv) && Select(g, gv, k - 1) == Select(st, tv, k - 1)
    ensures Select(g, gv, k) == Select(st, tv, k)
  {
    var best := Select(st, tv, k - 1);
    TakesOverAsGone(st, slot, j, tv, g, gv, k, best);
    SelectAlike(g, gv, st, tv, k, best);
  }

  lemma {:induction false} SelectAsGone(st: State, slot: nat, j: nat, tv: Trigger, g: State, gv: Trigger, k: nat)
    requires Leaving(st, slot, j) && Unmissed(st, slot) && k <= |st.sessions| == |g.sessions|
    requires tv == StoredTrigger(st, slot, true) && g == Gone(st, slot) && gv == StoredTrigger(g, j, false)
    requires ValidTrigger(st, tv) && ValidTrigger(g, gv)
    ensures Select(g, gv, k) == Select(st, tv, k)
  {
    if k > 0 {
      SelectAsGone(st, slot, j, tv, g, gv, k - 1);
      WalkNext(st, slot, j, tv, g, gv, k);
    }
  }

  /** The decision a departure sets off is the one those who stay would take by themselves, when the
      leaving client is not missed. */
  lemma DecidedAsGone(st: State, slot: nat, j: nat)
    requires Leaving(st, slot, j) && Unmissed(st, slot)
    ensures ValidTrigger(st, StoredTrigger(st, slot, true))
    ensures ValidTrigger(Gone(st, slot), StoredTrigger(Gone(st, slot), j, false))
    ensures Winner(Gone(st, slot), StoredTrigger(Gone(st, slot), j, false)) == Winner(st, StoredTrigger(st, slot, true))
  {
    var (g, tv, gv) := (Gone(st, slot), StoredTrigger(st, slot, true), StoredTrigger(Gone(st, slot), j, false));
    GoneViews(st, slot, j);
    SelectAsGone(st, slot, j, tv, g, gv, |st.sessions|);
    var best := Select(st, tv, |st.sessions|);
    if best.Some? {
      assert Takes(st, tv, best.value) && best.value != slot;
      assert SameLook(st, tv, g, gv, best.value);
    }
  }
}
