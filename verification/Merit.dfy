/** Which partition wins, in terms of the clients and their lists alone: no statistics, no
    comparison, no walk. */
module Merit {
  import opened Wire
  import opened ServerState
  import opened Stability
  import opened Selection
  import opened ArgMax
  import opened SlotOrder

  // ---------------------------------------------------------------- what counts

  /** The tie-breaker favours node `id` of the configured ids `cfg`. */
  ghost predicate Favours(tb: TieBreaker, cfg: set<u32>, id: u32) {
    match tb.mode
    case Lowest => id in cfg && forall k :: k in cfg ==> id <= k
    case Highest => id in cfg && forall k :: k in cfg ==> k <= id
    case ByNodeId => id == tb.nodeId
  }

  lemma FavouredIsPreferred(tb: TieBreaker, l: NodeList, id: u32)
    requires l != []
    ensures Favours(tb, Ids(l), id) <==> PreferredId(tb, l) == id
  {
    ExtremeIds(l);
  }

  /** The partition of `i` holds the favoured node. */
  ghost predicate Favoured(st: State, tv: Trigger, i: nat)
    requires i < |st.sessions|
  {
    exists id :: id in Ids(EffMembership(st, tv, i))
                 && Favours(st.sessions[i].tieBreaker, Ids(EffConfig(st, tv, i)), id)
  }

  /** The connected clients in the partition of `i`. */
  ghost function Crowd(st: State, tv: Trigger, i: nat): (who: set<int>)
    requires i < |st.sessions|
  {
    set k | 0 <= k < |st.sessions| && InCluster(st, st.sessions[i].cluster, k)
            && Has(EffMembership(st, tv, i), st.sessions[k].nodeId)
  }

  /** Those of them whose heuristics result is `v`: the latest one of `i` itself, the stored ones of
      the others. */
  ghost function Saying(st: State, tv: Trigger, i: nat, v: Heuristics): (who: set<int>)
    requires i < |st.sessions|
  {
    set k | k in Crowd(st, tv, i) && (if k == i then EffHeuristics(st, tv, i) else st.sessions[k].heuristics) == v
  }

  /** Connected clients, those that pass counted twice and those that fail not at all. */
  ghost function Standing(st: State, tv: Trigger, i: nat): (n: int)
    requires i < |st.sessions|
  {
    |Crowd(st, tv, i)| + |Saying(st, tv, i, Pass)| - |Saying(st, tv, i, Fail)|
  }

  /** Client `i` was in the quorate partition, and no member of the cluster objects to keeping it. */
  ghost predicate Backed(st: State, tv: Trigger, i: nat)
    requires ValidTrigger(st, tv) && i < |st.sessions|
  {
    var c := TriggerCluster(st, tv);
    && st.sessions[i].nodeId in Ids(st.clusters[c].quorate)
    && forall k :: InCluster(st, c, k) ==> st.sessions[k].keepActive
  }

  /** The partition of `k` yields to that of `i`: by its standing, then by its connected clients, then
      because only `i` was quorate, then because only `i` has the favoured node. */
  ghost predicate Outdone(st: State, tv: Trigger, k: nat, i: nat)
    requires ValidTrigger(st, tv) && k < |st.sessions| && i < |st.sessions|
  {
    || Standing(st, tv, k) < Standing(st, tv, i)
    || (Standing(st, tv, k) == Standing(st, tv, i)
        && (|| |Crowd(st, tv, k)| < |Crowd(st, tv, i)|
            || (|Crowd(st, tv, k)| == |Crowd(st, tv, i)|
                && (|| (Backed(st, tv, i) && !Backed(st, tv, k))
                    || (Backed(st, tv, i) == Backed(st, tv, k) && Favoured(st, tv, i) && !Favoured(st, tv, k))))))
  }

  // ---------------------------------------------------------------- and what the code looks at

  lemma CrowdIsConnected(st: State, tv: Trigger, i: nat)
    requires i < |st.sessions|
    ensures Crowd(st, tv, i) == Connected(st, st.sessions[i].cluster, EffMembership(st, tv, i))
    ensures forall v :: Saying(st, tv, i, v) == Among(st, i, Crowd(st, tv, i), EffHeuristics(st, tv, i), v)
  {
  }

  /** The statistics of a client are its crowd and what it says. */
  lemma CrowdIsCounted(st: State, tv: Trigger, i: nat)
    requires i < |st.sessions| && DuplicateFree(EffMembership(st, tv, i)) && DistinctIds(st, st.sessions[i].cluster)
    ensures CandidateStats(st, tv, i)
            == Stats(|Crowd(st, tv, i)|, |Saying(st, tv, i, Pass)|, |Saying(st, tv, i, Fail)|)
  {
    CrowdIsConnected(st, tv, i);
    StatsCount(st, i, EffMembership(st, tv, i), EffHeuristics(st, tv, i));
  }

  lemma FavouredIsHad(st: State, tv: Trigger, i: nat)
    requires i < |st.sessions| && EffConfig(st, tv, i) != []
    ensures Favoured(st, tv, i)
            <==> Has(EffMembership(st, tv, i), PreferredId(st.sessions[i].tieBreaker, EffConfig(st, tv, i)))
  {
    var p := PreferredId(st.sessions[i].tieBreaker, EffConfig(st, tv, i));
    FavouredIsPreferred(st.sessions[i].tieBreaker, EffConfig(st, tv, i), p);
    if Favoured(st, tv, i) {
      var id :| id in Ids(EffMembership(st, tv, i))
                && Favours(st.sessions[i].tieBreaker, Ids(EffConfig(st, tv, i)), id);
      FavouredIsPreferred(st.sessions[i].tieBreaker, EffConfig(st, tv, i), id);
    }
    assert Has(EffMembership(st, tv, i), p) <==> p in Ids(EffMembership(st, tv, i));
  }

  lemma BackedIsKept(st: State, tv: Trigger, i: nat)
    requires ValidTrigger(st, tv) && i < |st.sessions|
    ensures var c := TriggerCluster(st, tv);
            Backed(st, tv, i) <==> KeepActive(st, c) && Has(st.clusters[c].quorate, st.sessions[i].nodeId)
  {
  }

  lemma KeyIsMerit(st: State, tv: Trigger, i: nat)
    requires ValidTrigger(st, tv) && Candidate(st, tv, i) && !Major(st, tv, i)
    requires DuplicateFree(EffMembership(st, tv, i)) && DistinctIds(st, TriggerCluster(st, tv))
    ensures KeyOf(st, tv, i) == Key(false, Standing(st, tv, i), |Crowd(st, tv, i)|, Backed(st, tv, i),
                                    Favoured(st, tv, i))
  {
    CrowdIsCounted(st, tv, i);
    BackedIsKept(st, tv, i);
    FavouredIsHad(st, tv, i);
  }

  lemma LessIsOutdone(st: State, tv: Trigger, k: nat, i: nat)
    requires ValidTrigger(st, tv) && Partitioned(st, tv) && Candidate(st, tv, i) && Candidate(st, tv, k)
    requires !Major(st, tv, i) && !Major(st, tv, k)
    ensures Less(KeyOf(st, tv, k), KeyOf(st, tv, i)) <==> Outdone(st, tv, k, i)
  {
    assert WellListed(st, tv, i) && WellListed(st, tv, k);
    KeyIsMerit(st, tv, i);
    KeyIsMerit(st, tv, k);
  }

  // ---------------------------------------------------------------- who wins

  /** The winner is the partition of `i`. */
  ghost predicate Prevails(st: State, tv: Trigger, i: nat)
    requires ValidTrigger(st, tv) && i < |st.sessions|
  {
    Winner(st, tv).Some? && Ids(Winner(st, tv).value) == Ids(EffMembership(st, tv, i))
  }

  /** A majority wins. */
  lemma MajorityPrevails(st: State, tv: Trigger, i: nat)
    requires ValidTrigger(st, tv) && Partitioned(st, tv) && Candidate(st, tv, i)
    requires 2 * |EffMembership(st, tv, i)| > |EffConfig(st, tv, i)|
    ensures Prevails(st, tv, i)
  {
    assert Eligible(st, tv, i);
    PartitionsHaveOneSize(st, tv);
    QuorateIff(st, tv);
    WinnerIsTop(st, tv);
    var b := Select(st, tv, |st.sessions|).value;
    if !Together(st, tv, b, i) {
      Halves(st, tv, b, i);
      assert false;
    }
  }

  /** Of the halves of a configuration the one wins that outdoes every client of the other. */
  lemma HalfPrevails(st: State, tv: Trigger, i: nat)
    requires ValidTrigger(st, tv) && Partitioned(st, tv) && Candidate(st, tv, i)
    requires 2 * |EffMembership(st, tv, i)| == |EffConfig(st, tv, i)|
    requires forall k :: Candidate(st, tv, k) && !Together(st, tv, k, i) ==> Outdone(st, tv, k, i)
    ensures Prevails(st, tv, i)
  {
    assert Eligible(st, tv, i);
    PartitionsHaveOneSize(st, tv);
    QuorateIff(st, tv);
    WinnerIsTop(st, tv);
    var b := Select(st, tv, |st.sessions|).value;
    if !Together(st, tv, b, i) {
      assert !Major(st, tv, b) && !Major(st, tv, i);
      LessIsOutdone(st, tv, b, i);
      assert false;
    }
  }

  /** And only such a one, or one that ties with the other half, wins. */
  lemma WinnerIsNotOutdone(st: State, tv: Trigger, i: nat, k: nat)
    requires ValidTrigger(st, tv) && Partitioned(st, tv) && Candidate(st, tv, i) && Candidate(st, tv, k)
    requires 2 * |EffMembership(st, tv, i)| == |EffConfig(st, tv, i)| && !Together(st, tv, k, i)
    requires 2 * |EffMembership(st, tv, k)| == |EffConfig(st, tv, k)| && Prevails(st, tv, i)
    ensures exists j :: Candidate(st, tv, j) && Together(st, tv, j, i) && !Outdone(st, tv, j, k)
  {
    PartitionsHaveOneSize(st, tv);
    WinnerIsTop(st, tv);
    var b := Select(st, tv, |st.sessions|).value;
    assert Eligible(st, tv, i) && Eligible(st, tv, k) && Candidate(st, tv, b) && Together(st, tv, b, i);
    LessIsOutdone(st, tv, b, k);
  }
}
