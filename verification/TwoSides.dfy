/** Two connected nodes of a two-node configuration, each alone in its partition. */
module TwoSides {
  import opened Wire
  import opened ServerState
  import opened Stability
  import opened Selection
  import opened ArgMax
  import opened SlotOrder
  import opened Merit

  function Node(id: u32): (n: NodeInfo) {
    NodeInfo(id, 0, 0)
  }

  function Only(id: u32): (l: NodeList) {
    [Node(id)]
  }

  function Both(x: u32, y: u32): (l: NodeList) {
    [Node(x), Node(y)]
  }

  lemma ListIds(x: u32, y: u32)
    ensures Ids(Only(x)) == {x} && Ids(Both(x, y)) == {x, y}
  {
    assert Only(x)[0].nodeId == x && Both(x, y)[0].nodeId == x && Both(x, y)[1].nodeId == y;
    assert Has(Only(x), x) && Has(Both(x, y), x) && Has(Both(x, y), y);
  }

  /** Node `id` in slot `i`, seen alone in the configuration `cfg`. */
  ghost predicate Alone(st: State, tv: Trigger, i: nat, id: u32, cfg: NodeList, tb: TieBreaker) {
    && i < |st.sessions| && InCluster(st, 0, i)
    && st.sessions[i].nodeId == id && st.sessions[i].tieBreaker == tb
    && EffConfig(st, tv, i) == cfg && EffMembership(st, tv, i) == Only(id)
  }

  /** Slots 0 and 1 are the members of cluster 0, the nodes `x` and `y`, each alone. */
  ghost predicate Sides(st: State, tv: Trigger, x: u32, y: u32, tb: TieBreaker) {
    && x != y && ValidTrigger(st, tv) && TriggerCluster(st, tv) == 0 && !tv.leaving
    && Alone(st, tv, 0, x, Both(x, y), tb) && Alone(st, tv, 1, y, Both(x, y), tb)
    && (forall i :: InCluster(st, 0, i) ==> i < 2)
  }

  /** Whoever takes part is one of the two. */
  lemma SidesTake(st: State, tv: Trigger, x: u32, y: u32, tb: TieBreaker, i: int)
    requires Sides(st, tv, x, y, tb) && Takes(st, tv, i)
    ensures 0 <= i < 2 && Alone(st, tv, i, if i == 0 then x else y, Both(x, y), tb)
  {
  }

  lemma AloneAgrees(st: State, tv: Trigger, i: nat, id: u32, j: nat, id': u32, cfg: NodeList, tb: TieBreaker)
    requires Alone(st, tv, i, id, cfg, tb) && Alone(st, tv, j, id', cfg, tb) && (id == id' ==> i == j)
    ensures Agrees(st, tv, i, j) && (Together(st, tv, i, j) || Apart(st, tv, i, j))
  {
    ListIds(id, id);
    ListIds(id', id');
    assert Has(Only(id), id') <==> id' in Ids(Only(id));
  }

  lemma AloneListed(st: State, tv: Trigger, i: nat, id: u32, cfg: NodeList, tb: TieBreaker)
    requires Alone(st, tv, i, id, cfg, tb) && DuplicateFree(cfg) && Has(cfg, id)
    ensures WellListed(st, tv, i) && Has(EffMembership(st, tv, i), st.sessions[i].nodeId)
  {
    ListIds(id, id);
    assert id in Ids(Only(id)) && id in Ids(cfg);
  }

  lemma SidesStable(st: State, tv: Trigger, x: u32, y: u32, tb: TieBreaker)
    requires Sides(st, tv, x, y, tb)
    ensures Stable(st, tv)
  {
    forall i, j | Takes(st, tv, i) && Takes(st, tv, j)
      ensures Agrees(st, tv, i, j) && EffConfig(st, tv, i) == EffConfig(st, tv, j)
    {
      SidesTake(st, tv, x, y, tb, i);
      SidesTake(st, tv, x, y, tb, j);
      AloneAgrees(st, tv, i, if i == 0 then x else y, j, if j == 0 then x else y, Both(x, y), tb);
    }
  }

  lemma SidesPartitioned(st: State, tv: Trigger, x: u32, y: u32, tb: TieBreaker)
    requires Sides(st, tv, x, y, tb)
    ensures Partitioned(st, tv)
  {
    ListIds(x, y);
    SidesStable(st, tv, x, y, tb);
    forall i | Takes(st, tv, i)
      ensures WellListed(st, tv, i) && Has(EffMembership(st, tv, i), st.sessions[i].nodeId)
      ensures st.sessions[i].tieBreaker == tb
    {
      SidesTake(st, tv, x, y, tb, i);
      assert Has(Both(x, y), x) && Has(Both(x, y), y);
      AloneListed(st, tv, i, if i == 0 then x else y, Both(x, y), tb);
    }
    forall i, j | Candidate(st, tv, i) && Candidate(st, tv, j)
      ensures Together(st, tv, i, j) || Apart(st, tv, i, j)
    {
      SidesTake(st, tv, x, y, tb, i);
      SidesTake(st, tv, x, y, tb, j);
      AloneAgrees(st, tv, i, if i == 0 then x else y, j, if j == 0 then x else y, Both(x, y), tb);
    }
  }

  /** What a lone client weighs with heuristics result `h`. */
  function Worth(h: Heuristics): (n: nat) {
    match h
    case Fail => 0
    case HeurUndefined => 1
    case Pass => 2
  }

  lemma AloneCrowd(st: State, tv: Trigger, i: nat, id: u32, cfg: NodeList, tb: TieBreaker)
    requires Alone(st, tv, i, id, cfg, tb) && DistinctIds(st, 0)
    ensures |Crowd(st, tv, i)| == 1 && Standing(st, tv, i) == Worth(EffHeuristics(st, tv, i))
  {
    ListIds(id, id);
    assert forall k: u32 :: Has(Only(id), k) <==> k in Ids(Only(id));
    assert Crowd(st, tv, i) == {i};
    forall v
      ensures Saying(st, tv, i, v) == if EffHeuristics(st, tv, i) == v then {i} else {}
    {
    }
  }

  lemma AloneFavoured(st: State, tv: Trigger, i: nat, id: u32, cfg: NodeList, tb: TieBreaker)
    requires Alone(st, tv, i, id, cfg, tb)
    ensures Favoured(st, tv, i) <==> Favours(tb, Ids(cfg), id)
  {
    ListIds(id, id);
  }

  /** Both sides have half the nodes and one connected client. */
  lemma AloneKey(st: State, tv: Trigger, i: nat, id: u32, cfg: NodeList, tb: TieBreaker)
    requires ValidTrigger(st, tv) && TriggerCluster(st, tv) == 0 && !tv.leaving
    requires Alone(st, tv, i, id, cfg, tb) && DistinctIds(st, 0) && |cfg| == 2
    ensures Eligible(st, tv, i)
    ensures KeyOf(st, tv, i) == Key(false, Worth(EffHeuristics(st, tv, i)), 1, Backed(st, tv, i),
                                    Favours(tb, Ids(cfg), id))
  {
    AloneCrowd(st, tv, i, id, cfg, tb);
    AloneFavoured(st, tv, i, id, cfg, tb);
    KeyIsMerit(st, tv, i);
  }

  lemma SidesKeys(st: State, tv: Trigger, x: u32, y: u32, tb: TieBreaker)
    requires Sides(st, tv, x, y, tb)
    ensures Eligible(st, tv, 0) && Eligible(st, tv, 1) && forall i :: Eligible(st, tv, i) ==> i < 2
    ensures KeyOf(st, tv, 0)
            == Key(false, Worth(EffHeuristics(st, tv, 0)), 1, Backed(st, tv, 0), Favours(tb, {x, y}, x))
    ensures KeyOf(st, tv, 1)
            == Key(false, Worth(EffHeuristics(st, tv, 1)), 1, Backed(st, tv, 1), Favours(tb, {x, y}, y))
  {
    ListIds(x, y);
    assert DistinctIds(st, 0);
    AloneKey(st, tv, 0, x, Both(x, y), tb);
    AloneKey(st, tv, 1, y, Both(x, y), tb);
  }

  /** A strictly greater key wins. */
  lemma GreaterWins(st: State, tv: Trigger, x: u32, y: u32, tb: TieBreaker)
    requires Sides(st, tv, x, y, tb)
    ensures Eligible(st, tv, 0) && Eligible(st, tv, 1)
    ensures Less(KeyOf(st, tv, 1), KeyOf(st, tv, 0)) ==> Winner(st, tv) == Some(Only(x))
    ensures Less(KeyOf(st, tv, 0), KeyOf(st, tv, 1)) ==> Winner(st, tv) == Some(Only(y))
  {
    SidesPartitioned(st, tv, x, y, tb);
    SidesKeys(st, tv, x, y, tb);
    PartitionsHaveOneSize(st, tv);
    QuorateIff(st, tv);
    WinnerIsTop(st, tv);
    var b := Select(st, tv, |st.sessions|).value;
    assert b == 0 || b == 1;
    assert !Less(KeyOf(st, tv, b), KeyOf(st, tv, 0)) && !Less(KeyOf(st, tv, b), KeyOf(st, tv, 1));
  }

  /** The two do not differ in anything that counts before the tie-breaker. */
  ghost predicate Tied(st: State, tv: Trigger)
    requires ValidTrigger(st, tv) && |st.sessions| >= 2
  {
    Worth(EffHeuristics(st, tv, 0)) == Worth(EffHeuristics(st, tv, 1)) && Backed(st, tv, 0) == Backed(st, tv, 1)
  }

  /** Which of two lone nodes wins, in closed form. The better heuristics result decides; then having
      been quorate, unless a member has switched that off; then the tie-breaker; then the slot. */
  lemma TwoHalves(st: State, tv: Trigger, x: u32, y: u32, tb: TieBreaker)
    requires Sides(st, tv, x, y, tb)
    ensures var (wx, wy) := (Worth(EffHeuristics(st, tv, 0)), Worth(EffHeuristics(st, tv, 1)));
            var keep := forall k :: InCluster(st, 0, k) ==> st.sessions[k].keepActive;
            var (qx, qy) := (x in Ids(st.clusters[0].quorate), y in Ids(st.clusters[0].quorate));
            var second := if wx != wy then wy > wx
                          else if keep && qx != qy then qy
                          else match tb.mode
                               case Lowest => y < x
                               case Highest => y > x
                               case ByNodeId => tb.nodeId == y;
            Winner(st, tv) == Some(Only(if second then y else x))
  {
    SidesKeys(st, tv, x, y, tb);
    GreaterWins(st, tv, x, y, tb);
    FavouredOfTwo(tb, x, y);
    if Tied(st, tv) && !Favours(tb, {x, y}, x) && !Favours(tb, {x, y}, y) {
      TieFollowsSlots(st, tv, x, y, tb);
    }
  }

  /** The favourite of two nodes. */
  lemma FavouredOfTwo(tb: TieBreaker, x: u32, y: u32)
    requires x != y
    ensures Favours(tb, {x, y}, x)
            <==> match tb.mode { case Lowest => x < y case Highest => x > y case ByNodeId => tb.nodeId == x }
    ensures Favours(tb, {x, y}, y)
            <==> match tb.mode { case Lowest => y < x case Highest => y > x case ByNodeId => tb.nodeId == y }
  {
    assert x in {x, y} && y in {x, y};
  }

  /** Everybody reports the whole configuration `l` with one ring. */
  ghost predicate United(st: State, tv: Trigger, l: NodeList)
    requires ValidTrigger(st, tv)
  {
    && l != [] && Takes(st, tv, tv.slot)
    && (forall i :: Takes(st, tv, i) ==>
          && EffConfig(st, tv, i) == l && EffMembership(st, tv, i) == l && EffRing(st, tv, i) == tv.ring
          && Has(l, st.sessions[i].nodeId))
  }

  lemma UnitedWins(st: State, tv: Trigger, l: NodeList)
    requires ValidTrigger(st, tv) && United(st, tv, l)
    ensures Stable(st, tv) && Winner(st, tv) == Some(l)
  {
    assert Eligible(st, tv, tv.slot);
    QuorateIff(st, tv);
  }

  /** Two sides with equal keys are both best. */
  lemma TiedTops(st: State, tv: Trigger, x: u32, y: u32, tb: TieBreaker)
    requires Sides(st, tv, x, y, tb) && Tied(st, tv) && !Favours(tb, {x, y}, x) && !Favours(tb, {x, y}, y)
    ensures Top(st, tv, 0) && Top(st, tv, 1) && !Replaces(KeyOf(st, tv, 0))
  {
    SidesKeys(st, tv, x, y, tb);
  }

  /** With a tie-breaker that names neither node the tie is not settled. */
  lemma TieUnsettled(st: State, tv: Trigger, x: u32, y: u32, tb: TieBreaker)
    requires Sides(st, tv, x, y, tb) && Tied(st, tv) && !Favours(tb, {x, y}, x) && !Favours(tb, {x, y}, y)
    ensures !Settled(st, tv)
  {
    TiedTops(st, tv, x, y, tb);
    ListIds(x, y);
    ListIds(y, x);
    assert !Together(st, tv, 0, 1);
  }

  /** The earlier slot wins such a tie. */
  lemma TieFollowsSlots(st: State, tv: Trigger, x: u32, y: u32, tb: TieBreaker)
    requires Sides(st, tv, x, y, tb) && Tied(st, tv) && !Favours(tb, {x, y}, x) && !Favours(tb, {x, y}, y)
    ensures Winner(st, tv) == Some(Only(x))
  {
    SidesPartitioned(st, tv, x, y, tb);
    TiedTops(st, tv, x, y, tb);
    PartitionsHaveOneSize(st, tv);
    QuorateIff(st, tv);
    WinnerIsTop(st, tv);
    var b := Select(st, tv, |st.sessions|).value;
    TopsTie(st, tv, b, 0);
    FirstTop(st, tv, b, 0);
  }
}
