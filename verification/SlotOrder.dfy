/** The winner does not depend on which slots the clients happen to occupy, except for an exact tie
    between two halves that the tie-breaker does not settle. */
module SlotOrder {
  import opened Wire
  import opened ServerState
  import opened Stability
  import opened Selection
  import opened ArgMax

  // ---------------------------------------------------------------- partitions of a configuration

  /** The lists of a candidate name each node once, and its partition is within its configuration. */
  ghost predicate WellListed(st: State, tv: Trigger, i: nat)
    requires i < |st.sessions|
  {
    && DuplicateFree(EffConfig(st, tv, i)) && DuplicateFree(EffMembership(st, tv, i))
    && Ids(EffMembership(st, tv, i)) <= Ids(EffConfig(st, tv, i))
  }

  ghost predicate Apart(st: State, tv: Trigger, i: nat, j: nat)
    requires i < |st.sessions| && j < |st.sessions|
  {
    Ids(EffMembership(st, tv, i)) !! Ids(EffMembership(st, tv, j))
  }

  ghost predicate Together(st: State, tv: Trigger, i: nat, j: nat)
    requires i < |st.sessions| && j < |st.sessions|
  {
    Ids(EffMembership(st, tv, i)) == Ids(EffMembership(st, tv, j))
  }

  /** The candidates agree on the configuration and the tie-breaker, and fall into partitions. */
  ghost predicate Partitioned(st: State, tv: Trigger)
    requires ValidTrigger(st, tv)
  {
    && SameConfigs(st, tv) && SelfMembership(st, tv) && DistinctIds(st, TriggerCluster(st, tv))
    && (forall i :: Candidate(st, tv, i) ==> WellListed(st, tv, i))
    && (forall i, j :: Candidate(st, tv, i) && Candidate(st, tv, j) ==> Together(st, tv, i, j) || Apart(st, tv, i, j))
    && (forall i, j :: Candidate(st, tv, i) && Candidate(st, tv, j) ==>
          SameTieBreaker(st.sessions[i].tieBreaker, st.sessions[j].tieBreaker))
  }

  lemma {:induction false} CountIds(l: NodeList)
    requires DuplicateFree(l)
    ensures |Ids(l)| == |l|
  {
    if l != [] {
      var init, last := l[..|l| - 1], l[|l| - 1].nodeId;
      CountIds(init);
      assert Ids(l) == Ids(init) + {last};
      assert last !in Ids(init);
    }
  }

  lemma CountDisjoint(a: set<u32>, b: set<u32>, whole: set<u32>)
    requires a !! b && a <= whole && b <= whole
    ensures |a| + |b| <= |whole|
    ensures |a| + |b| == |whole| ==> a + b == whole
  {
    assert |a + b| == |a| + |b|;
    CountSubset(a + b, whole);
  }

  lemma CountSubset(a: set<u32>, whole: set<u32>)
    requires a <= whole
    ensures |a| <= |whole| && (|a| == |whole| ==> a == whole)
  {
    assert whole == a + (whole - a);
    assert |whole| == |a| + |whole - a|;
  }

  /** Candidates of one partition are equally big; two disjoint partitions of at least half are both
      exactly half, and make up the configuration. */
  lemma Halves(st: State, tv: Trigger, i: nat, j: nat)
    requires ValidTrigger(st, tv) && Partitioned(st, tv) && Eligible(st, tv, i) && Eligible(st, tv, j)
    ensures Major(st, tv, i) == Major(st, tv, j)
    ensures Apart(st, tv, i, j) ==>
              && !Major(st, tv, i)
              && Ids(EffMembership(st, tv, i)) + Ids(EffMembership(st, tv, j)) == Ids(EffConfig(st, tv, i))
  {
    assert WellListed(st, tv, i) && WellListed(st, tv, j);
    CountIds(EffConfig(st, tv, i));
    CountIds(EffConfig(st, tv, j));
    CountIds(EffMembership(st, tv, i));
    CountIds(EffMembership(st, tv, j));
    assert Ids(EffConfig(st, tv, i)) == Ids(EffConfig(st, tv, j));
    if Apart(st, tv, i, j) {
      CountDisjoint(Ids(EffMembership(st, tv, i)), Ids(EffMembership(st, tv, j)), Ids(EffConfig(st, tv, i)));
    } else {
      assert Together(st, tv, i, j);
    }
  }

  lemma PartitionsHaveOneSize(st: State, tv: Trigger)
    requires ValidTrigger(st, tv) && Partitioned(st, tv)
    ensures OneSize(st, tv)
  {
    forall i, j | Eligible(st, tv, i) && Eligible(st, tv, j)
      ensures Major(st, tv, i) == Major(st, tv, j)
    {
      Halves(st, tv, i, j);
    }
  }

  // ---------------------------------------------------------------- the tie-breaker

  /** The preferred node depends on the configured ids and the tie-breaker alone. */
  lemma PreferredAgrees(a: TieBreaker, b: TieBreaker, l: NodeList, k: NodeList)
    requires SameTieBreaker(a, b) && l != [] && k != [] && Ids(l) == Ids(k)
    ensures PreferredId(a, l) == PreferredId(b, k)
  {
    ExtremeIds(l);
    ExtremeIds(k);
  }

  lemma SamePreference(st: State, tv: Trigger, i: nat, j: nat)
    requires ValidTrigger(st, tv) && Partitioned(st, tv) && Candidate(st, tv, i) && Candidate(st, tv, j)
    ensures PreferredId(st.sessions[i].tieBreaker, EffConfig(st, tv, i))
            == PreferredId(st.sessions[j].tieBreaker, EffConfig(st, tv, j))
  {
    PreferredAgrees(st.sessions[i].tieBreaker, st.sessions[j].tieBreaker, EffConfig(st, tv, i), EffConfig(st, tv, j));
  }

  /** Nobody eligible has a greater key. */
  ghost predicate Top(st: State, tv: Trigger, i: nat)
    requires ValidTrigger(st, tv)
  {
    Eligible(st, tv, i) && forall k :: Eligible(st, tv, k) ==> !Less(KeyOf(st, tv, i), KeyOf(st, tv, k))
  }

  lemma TopsTie(st: State, tv: Trigger, i: nat, j: nat)
    requires ValidTrigger(st, tv) && Top(st, tv, i) && Top(st, tv, j)
    ensures KeyOf(st, tv, i) == KeyOf(st, tv, j)
  {
  }

  /** The greatest key belongs to one partition. */
  ghost predicate Settled(st: State, tv: Trigger)
    requires ValidTrigger(st, tv)
  {
    forall i, j :: Top(st, tv, i) && Top(st, tv, j) ==> Together(st, tv, i, j)
  }

  /** The tie-breaker names a configured node. */
  ghost predicate NamesConfigured(st: State, tv: Trigger)
    requires ValidTrigger(st, tv)
  {
    forall i :: Candidate(st, tv, i) && st.sessions[i].tieBreaker.mode == ByNodeId ==>
      Has(EffConfig(st, tv, i), st.sessions[i].tieBreaker.nodeId)
  }

  /** Two disjoint halves cannot both have the preferred node, and one of them has it if it is
      configured. */
  lemma PreferenceSplits(st: State, tv: Trigger, i: nat, j: nat)
    requires ValidTrigger(st, tv) && Partitioned(st, tv) && Eligible(st, tv, i) && Eligible(st, tv, j)
    requires Apart(st, tv, i, j)
    ensures !(KeyOf(st, tv, i).preferred && KeyOf(st, tv, j).preferred)
    ensures NamesConfigured(st, tv) ==> KeyOf(st, tv, i).preferred || KeyOf(st, tv, j).preferred
  {
    Halves(st, tv, i, j);
    Halves(st, tv, j, i);
    SamePreference(st, tv, i, j);
    var id := PreferredId(st.sessions[i].tieBreaker, EffConfig(st, tv, i));
    ExtremeIds(EffConfig(st, tv, i));
    assert NamesConfigured(st, tv) ==> id in Ids(EffConfig(st, tv, i));
    assert id in Ids(EffMembership(st, tv, i)) ==> id !in Ids(EffMembership(st, tv, j));
  }

  /** A tie-breaker that names a configured node settles every tie. */
  lemma ConfiguredSettles(st: State, tv: Trigger)
    requires ValidTrigger(st, tv) && Partitioned(st, tv) && NamesConfigured(st, tv)
    ensures Settled(st, tv)
  {
    forall i, j | Top(st, tv, i) && Top(st, tv, j)
      ensures Together(st, tv, i, j)
    {
      TopsTie(st, tv, i, j);
      if Apart(st, tv, i, j) {
        PreferenceSplits(st, tv, i, j);
      }
    }
  }

  /** The winner is the partition of a client with the greatest key. */
  lemma WinnerIsTop(st: State, tv: Trigger)
    requires ValidTrigger(st, tv) && SelfMembership(st, tv) && OneSize(st, tv) && Winner(st, tv).Some?
    ensures var b := Select(st, tv, |st.sessions|).value;
            Top(st, tv, b) && Best(st, tv, |st.sessions|, b) && Winner(st, tv).value == EffMembership(st, tv, b)
  {
    SelectEligible(st, tv, |st.sessions|);
    SelectIsBest(st, tv, |st.sessions|);
    var b := Select(st, tv, |st.sessions|).value;
    forall k | Eligible(st, tv, k)
      ensures !Less(KeyOf(st, tv, b), KeyOf(st, tv, k))
    {
      assert Yields(KeyOf(st, tv, k), KeyOf(st, tv, b), k < b);
    }
  }

  /** Arg-max: with a tie-breaker that names a configured node, the winner is the one partition whose
      clients have the greatest key. */
  lemma WinnerIsArgMax(st: State, tv: Trigger, i: nat)
    requires ValidTrigger(st, tv) && Partitioned(st, tv) && NamesConfigured(st, tv) && Top(st, tv, i)
    ensures Winner(st, tv).Some? && Ids(Winner(st, tv).value) == Ids(EffMembership(st, tv, i))
  {
    PartitionsHaveOneSize(st, tv);
    QuorateIff(st, tv);
    WinnerIsTop(st, tv);
    ConfiguredSettles(st, tv);
    assert Together(st, tv, Select(st, tv, |st.sessions|).value, i);
  }

  // ---------------------------------------------------------------- reordering the slots

  /** The same clients in other slots: `p` says which old slot each new one holds, `q` undoes it. */
  ghost predicate Reordered(st: State, tv: Trigger, st': State, tv': Trigger, p: seq<int>, q: seq<int>) {
    && |p| == |q| == |st.sessions| == |st'.sessions| && st'.clusters == st.clusters
    && (forall k :: 0 <= k < |p| ==> 0 <= p[k] < |p| && q[p[k]] == k && st'.sessions[k] == st.sessions[p[k]])
    && (forall k :: 0 <= k < |q| ==> 0 <= q[k] < |q| && p[q[k]] == k)
    && tv'.slot < |p| && p[tv'.slot] == tv.slot && tv' == tv.(slot := tv'.slot)
  }

  lemma MovedView(st: State, tv: Trigger, st': State, tv': Trigger, p: seq<int>, q: seq<int>, k: nat)
    requires ValidTrigger(st, tv) && Reordered(st, tv, st', tv', p, q) && k < |p|
    ensures ValidTrigger(st', tv') && TriggerCluster(st', tv') == TriggerCluster(st, tv)
    ensures EffConfig(st', tv', k) == EffConfig(st, tv, p[k])
    ensures EffMembership(st', tv', k) == EffMembership(st, tv, p[k])
    ensures EffHeuristics(st', tv', k) == EffHeuristics(st, tv, p[k])
    ensures Takes(st', tv', k) <==> Takes(st, tv, p[k])
    ensures Eligible(st', tv', k) <==> Eligible(st, tv, p[k])
  {
  }

  lemma MovedFirst(st: State, st': State, p: seq<int>, q: seq<int>, c: int, id: u32)
    requires |p| == |q| == |st.sessions| == |st'.sessions| && DistinctIds(st, c)
    requires forall k :: 0 <= k < |p| ==> 0 <= p[k] < |p| && q[p[k]] == k && st'.sessions[k] == st.sessions[p[k]]
    requires forall k :: 0 <= k < |q| ==> 0 <= q[k] < |q| && p[q[k]] == k
    ensures match FirstActive(st, c, id, |p|)
            case None => FirstActive(st', c, id, |p|) == None
            case Some(i) => FirstActive(st', c, id, |p|) == Some(q[i])
  {
    var r, r' := FirstActive(st, c, id, |p|), FirstActive(st', c, id, |p|);
    FirstActiveFinds(st, c, id, |p|);
    FirstActiveFinds(st', c, id, |p|);
    if r.Some? {
      assert InCluster(st', c, q[r.value]) && st'.sessions[q[r.value]].nodeId == id;
    }
    if r'.Some? {
      assert InCluster(st, c, p[r'.value]) && st.sessions[p[r'.value]].nodeId == id;
    }
  }

  lemma {:induction false} MovedStats(st: State, st': State, p: seq<int>, q: seq<int>, rep: nat, mem: NodeList,
                                      n: nat, h: Heuristics)
    requires rep < |p| == |q| == |st.sessions| == |st'.sessions| && n <= |mem|
    requires forall k :: 0 <= k < |p| ==> 0 <= p[k] < |p| && q[p[k]] == k && st'.sessions[k] == st.sessions[p[k]]
    requires forall k :: 0 <= k < |q| ==> 0 <= q[k] < |q| && p[q[k]] == k
    requires DistinctIds(st, st'.sessions[rep].cluster)
    ensures StatsUpTo(st', rep, mem, n, h) == StatsUpTo(st, p[rep], mem, n, h)
  {
    if n > 0 {
      MovedStats(st, st', p, q, rep, mem, n - 1, h);
      MovedFirst(st, st', p, q, st'.sessions[rep].cluster, mem[n - 1].nodeId);
    }
  }

  /** A client has the same key in any slot. */
  lemma MovedKey(st: State, tv: Trigger, st': State, tv': Trigger, p: seq<int>, q: seq<int>, k: nat)
    requires ValidTrigger(st, tv) && ValidTrigger(st', tv') && Reordered(st, tv, st', tv', p, q) && k < |p|
    requires DistinctIds(st, TriggerCluster(st, tv)) && Candidate(st, tv, p[k]) && Candidate(st', tv', k)
    ensures KeyOf(st', tv', k) == KeyOf(st, tv, p[k])
  {
    MovedView(st, tv, st', tv', p, q, k);
    var mem := EffMembership(st', tv', k);
    MovedStats(st, st', p, q, k, mem, |mem|, EffHeuristics(st', tv', k));
    var c := TriggerCluster(st, tv);
    assert KeepActive(st', c) <==> KeepActive(st, c) by {
      forall i | InCluster(st, c, i)
        ensures InCluster(st', c, q[i]) && st'.sessions[q[i]] == st.sessions[i]
      {
      }
      forall i | InCluster(st', c, i)
        ensures InCluster(st, c, p[i])
      {
      }
    }
  }

  /** What the walk needs to pick a greatest key carries over to any order of the slots. */
  lemma MovedSizes(st: State, tv: Trigger, st': State, tv': Trigger, p: seq<int>, q: seq<int>)
    requires ValidTrigger(st, tv) && Reordered(st, tv, st', tv', p, q) && SelfMembership(st, tv) && OneSize(st, tv)
    ensures ValidTrigger(st', tv') && SelfMembership(st', tv') && OneSize(st', tv')
  {
    MovedView(st, tv, st', tv', p, q, tv'.slot);
    forall k | Takes(st', tv', k)
      ensures Takes(st, tv, p[k]) && EffMembership(st', tv', k) == EffMembership(st, tv, p[k])
    {
      MovedView(st, tv, st', tv', p, q, k);
    }
    forall i, j | Eligible(st', tv', i) && Eligible(st', tv', j)
      ensures Major(st', tv', i) == Major(st', tv', j)
    {
      MovedView(st, tv, st', tv', p, q, i);
      MovedView(st, tv, st', tv', p, q, j);
    }
  }

  lemma MovedTop(st: State, tv: Trigger, st': State, tv': Trigger, p: seq<int>, q: seq<int>, k: nat)
    requires ValidTrigger(st, tv) && ValidTrigger(st', tv') && Reordered(st, tv, st', tv', p, q) && k < |p|
    requires DistinctIds(st, TriggerCluster(st, tv))
    ensures Top(st', tv', k) <==> Top(st, tv, p[k])
  {
    MovedView(st, tv, st', tv', p, q, k);
    if Eligible(st, tv, p[k]) {
      MovedKey(st, tv, st', tv', p, q, k);
      forall i | 0 <= i < |p|
        ensures Eligible(st', tv', i) <==> Eligible(st, tv, p[i])
        ensures Eligible(st', tv', i) ==> KeyOf(st', tv', i) == KeyOf(st, tv, p[i])
      {
        MovedView(st, tv, st', tv', p, q, i);
        if Eligible(st', tv', i) {
          MovedKey(st, tv, st', tv', p, q, i);
        }
      }
      if Top(st', tv', k) {
        forall i | Eligible(st, tv, i)
          ensures !Less(KeyOf(st, tv, p[k]), KeyOf(st, tv, i))
        {
          assert p[q[i]] == i && Eligible(st', tv', q[i]);
        }
      }
    }
  }

  ghost predicate SameWinner(w: Option<NodeList>, w': Option<NodeList>) {
    (w.Some? <==> w'.Some?) && (w.Some? ==> Ids(w.value) == Ids(w'.value))
  }

  lemma MovedEligible(st: State, tv: Trigger, st': State, tv': Trigger, p: seq<int>, q: seq<int>)
    requires ValidTrigger(st, tv) && ValidTrigger(st', tv') && Reordered(st, tv, st', tv', p, q)
    requires SelfMembership(st, tv) && SelfMembership(st', tv')
    ensures Winner(st, tv).Some? <==> Winner(st', tv').Some?
  {
    QuorateIff(st, tv);
    QuorateIff(st', tv');
    if i :| Eligible(st, tv, i) {
      MovedView(st, tv, st', tv', p, q, q[i]);
    }
    if i :| Eligible(st', tv', i) {
      MovedView(st, tv, st', tv', p, q, i);
    }
  }

  /** Slot order does not matter as long as the greatest key belongs to one partition. */
  lemma SettledIgnoresOrder(st: State, tv: Trigger, st': State, tv': Trigger, p: seq<int>, q: seq<int>)
    requires ValidTrigger(st, tv) && Partitioned(st, tv) && Settled(st, tv) && Reordered(st, tv, st', tv', p, q)
    ensures ValidTrigger(st', tv') && SameWinner(Winner(st, tv), Winner(st', tv'))
  {
    PartitionsHaveOneSize(st, tv);
    MovedSizes(st, tv, st', tv', p, q);
    MovedEligible(st, tv, st', tv', p, q);
    if Winner(st, tv).Some? {
      WinnerIsTop(st, tv);
      WinnerIsTop(st', tv');
      var b, b' := Select(st, tv, |st.sessions|).value, Select(st', tv', |st'.sessions|).value;
      MovedTop(st, tv, st', tv', p, q, b');
      MovedView(st, tv, st', tv', p, q, b');
      assert Together(st, tv, b, p[b']);
    }
  }

  predicate Swaps(p: seq<int>, b: nat, x: nat) {
    forall k :: 0 <= k < |p| ==> p[k] == if k == b then x else if k == x then b else k
  }

  lemma Swap(st: State, tv: Trigger, b: nat, x: nat) returns (st': State, tv': Trigger, p: seq<int>)
    requires b < |st.sessions| && x < |st.sessions| && tv.slot < |st.sessions|
    ensures Reordered(st, tv, st', tv', p, p) && Swaps(p, b, x)
  {
    p := seq(|st.sessions|, k requires 0 <= k < |st.sessions| => if k == b then x else if k == x then b else k);
    st' := st.(sessions := st.sessions[b := st.sessions[x]][x := st.sessions[b]]);
    tv' := tv.(slot := p[tv.slot]);
  }

  /** Two tied halves: the tie goes to the earlier slot. */
  lemma TiedHalves(st: State, tv: Trigger, b: nat, x: nat)
    requires ValidTrigger(st, tv) && Partitioned(st, tv) && Top(st, tv, b) && Top(st, tv, x) && !Together(st, tv, b, x)
    ensures !Replaces(KeyOf(st, tv, b))
  {
    TopsTie(st, tv, b, x);
    Halves(st, tv, b, x);
    PreferenceSplits(st, tv, b, x);
  }

  /** When ties go to the earlier slot, the winner is the first client with the greatest key. */
  lemma FirstTop(st: State, tv: Trigger, b: nat, i: nat)
    requires ValidTrigger(st, tv) && Top(st, tv, b) && Best(st, tv, |st.sessions|, b) && Top(st, tv, i)
    requires !Replaces(KeyOf(st, tv, b))
    ensures b <= i
  {
    TopsTie(st, tv, b, i);
    assert Yields(KeyOf(st, tv, i), KeyOf(st, tv, b), i < b);
  }

  /** Without a settled key there is another order of the slots with another winner: swap the winner
      with a tied client of the other half. */
  lemma UnsettledFollowsOrder(st: State, tv: Trigger) returns (st': State, tv': Trigger, p: seq<int>)
    requires ValidTrigger(st, tv) && Partitioned(st, tv) && !Settled(st, tv)
    ensures Reordered(st, tv, st', tv', p, p) && ValidTrigger(st', tv')
    ensures !SameWinner(Winner(st, tv), Winner(st', tv'))
  {
    var i, j :| Top(st, tv, i) && Top(st, tv, j) && !Together(st, tv, i, j);
    PartitionsHaveOneSize(st, tv);
    QuorateIff(st, tv);
    WinnerIsTop(st, tv);
    var b := Select(st, tv, |st.sessions|).value;
    var x := if Together(st, tv, b, i) then j else i;
    st', tv', p := Swap(st, tv, b, x);
    MovedSizes(st, tv, st', tv', p, p);
    MovedEligible(st, tv, st', tv', p, p);
    RivalWins(st, tv, st', tv', p, b, x);
  }

  lemma RivalWins(st: State, tv: Trigger, st': State, tv': Trigger, p: seq<int>, b: nat, x: nat)
    requires ValidTrigger(st, tv) && ValidTrigger(st', tv') && Partitioned(st, tv) && Reordered(st, tv, st', tv', p, p)
    requires SelfMembership(st', tv') && OneSize(st', tv')
    requires Winner(st, tv).Some? && Winner(st', tv').Some?
    requires b == Select(st, tv, |st.sessions|).value && Top(st, tv, b) && Best(st, tv, |st.sessions|, b)
    requires Top(st, tv, x) && !Together(st, tv, b, x) && Swaps(p, b, x)
    ensures !SameWinner(Winner(st, tv), Winner(st', tv'))
  {
    WinnerIsTop(st', tv');
    var b' := Select(st', tv', |st'.sessions|).value;
    TiedHalves(st, tv, b, x);
    RivalSelected(st, tv, st', tv', p, b, x, b');
    MovedView(st, tv, st', tv', p, p, b);
  }

  /** After the swap the rival sits in the winner's slot, and is the first of the greatest. */
  lemma RivalSelected(st: State, tv: Trigger, st': State, tv': Trigger, p: seq<int>, b: nat, x: nat, b': nat)
    requires ValidTrigger(st, tv) && ValidTrigger(st', tv') && Reordered(st, tv, st', tv', p, p) && Swaps(p, b, x)
    requires DistinctIds(st, TriggerCluster(st, tv))
    requires Top(st, tv, b) && Best(st, tv, |st.sessions|, b) && Top(st, tv, x) && !Replaces(KeyOf(st, tv, b))
    requires Top(st', tv', b') && Best(st', tv', |st'.sessions|, b')
    ensures b' == b
  {
    MovedTop(st, tv, st', tv', p, p, b');
    MovedTop(st, tv, st', tv', p, p, b);
    TopsTie(st, tv, b, p[b']);
    MovedKey(st, tv, st', tv', p, p, b');
    FirstTop(st, tv, b, x);
    FirstTop(st, tv, b, p[b']);
    FirstTop(st', tv', b', b);
  }

  /** Exactly when the winner is the same for every order of the slots. */
  lemma OrderIgnoredIff(st: State, tv: Trigger)
    requires ValidTrigger(st, tv) && Partitioned(st, tv)
    ensures Settled(st, tv) <==>
            forall st', tv', p, q :: Reordered(st, tv, st', tv', p, q) ==>
              ValidTrigger(st', tv') && SameWinner(Winner(st, tv), Winner(st', tv'))
  {
    if Settled(st, tv) {
      forall st', tv', p, q | Reordered(st, tv, st', tv', p, q)
        ensures ValidTrigger(st', tv') && SameWinner(Winner(st, tv), Winner(st', tv'))
      {
        SettledIgnoresOrder(st, tv, st', tv', p, q);
      }
    } else {
      var st', tv', p := UnsettledFollowsOrder(st, tv);
    }
  }

  // ---------------------------------------------------------------- the statistics

  /** The connected clients of a partition. */
  function Connected(st: State, c: int, mem: NodeList): (r: set<int>) {
    set i | 0 <= i < |st.sessions| && InCluster(st, c, i) && Has(mem, st.sessions[i].nodeId)
  }

  function Opinion(st: State, rep: nat, h: Heuristics, i: int): (r: Heuristics) {
    if i == rep || i < 0 || i >= |st.sessions| then h else st.sessions[i].heuristics
  }

  /** Those of the clients `who` with heuristics result `v`, the representative's taken as `h`. */
  function Among(st: State, rep: nat, who: set<int>, h: Heuristics, v: Heuristics): (r: set<int>) {
    set i | i in who && Opinion(st, rep, h, i) == v
  }

  lemma AmongMore(st: State, rep: nat, who: set<int>, i: int, h: Heuristics, v: Heuristics)
    requires i !in who
    ensures |Among(st, rep, who + {i}, h, v)|
            == |Among(st, rep, who, h, v)| + (if Opinion(st, rep, h, i) == v then 1 else 0)
  {
    var a, b := Among(st, rep, who, h, v), Among(st, rep, who + {i}, h, v);
    assert b == if Opinion(st, rep, h, i) == v then a + {i} else a;
  }

  /** The statistics count the connected, the passing and the failing clients of the partition. */
  lemma StatsCount(st: State, rep: nat, mem: NodeList, h: Heuristics)
    requires rep < |st.sessions| && DuplicateFree(mem) && DistinctIds(st, st.sessions[rep].cluster)
    ensures var t := PartitionStats(st, rep, mem, h);
            var who := Connected(st, st.sessions[rep].cluster, mem);
            && t.clients == |who|
            && t.pass == |Among(st, rep, who, h, Pass)| && t.fail == |Among(st, rep, who, h, Fail)|
  {
    CountUpTo(st, rep, mem, |mem|, h);
    assert mem[..|mem|] == mem;
  }

  /** `t` counts the clients `who` and their opinions. */
  ghost predicate Counts(st: State, rep: nat, who: set<int>, h: Heuristics, t: Stats) {
    t.clients == |who| && t.pass == |Among(st, rep, who, h, Pass)| && t.fail == |Among(st, rep, who, h, Fail)|
  }

  lemma {:induction false} CountUpTo(st: State, rep: nat, mem: NodeList, n: nat, h: Heuristics)
    requires rep < |st.sessions| && DuplicateFree(mem) && DistinctIds(st, st.sessions[rep].cluster) && n <= |mem|
    ensures Counts(st, rep, Connected(st, st.sessions[rep].cluster, mem[..n]), h, StatsUpTo(st, rep, mem, n, h))
  {
    var c := st.sessions[rep].cluster;
    if n == 0 {
      assert Connected(st, c, mem[..n]) == {};
      assert Among(st, rep, {}, h, Pass) == {} && Among(st, rep, {}, h, Fail) == {};
    } else {
      CountUpTo(st, rep, mem, n - 1, h);
      OneMoreId(mem, n);
      OneMore(st, c, mem[..n - 1], mem[..n], mem[n - 1].nodeId);
      CountOne(st, rep, mem, n, h, Connected(st, c, mem[..n - 1]), Connected(st, c, mem[..n]));
    }
  }

  lemma CountOne(st: State, rep: nat, mem: NodeList, n: nat, h: Heuristics, who: set<int>, who': set<int>)
    requires rep < |st.sessions| && 0 < n <= |mem| && Counts(st, rep, who, h, StatsUpTo(st, rep, mem, n - 1, h))
    requires match FirstActive(st, st.sessions[rep].cluster, mem[n - 1].nodeId, |st.sessions|)
             case None => who' == who
             case Some(i) => i !in who && who' == who + {i}
    ensures Counts(st, rep, who', h, StatsUpTo(st, rep, mem, n, h))
  {
    OneMoreCount(st, rep, who, who', FirstActive(st, st.sessions[rep].cluster, mem[n - 1].nodeId, |st.sessions|), h);
  }

  lemma OneMoreCount(st: State, rep: nat, who: set<int>, who': set<int>, first: Option<nat>, h: Heuristics)
    requires match first { case None => who' == who case Some(i) => i !in who && who' == who + {i} }
    ensures |who'| == |who| + (if first.Some? then 1 else 0)
    ensures forall v :: |Among(st, rep, who', h, v)|
              == |Among(st, rep, who, h, v)| + (if first.Some? && Opinion(st, rep, h, first.value) == v then 1 else 0)
  {
    if first.Some? {
      forall v
        ensures |Among(st, rep, who', h, v)|
                == |Among(st, rep, who, h, v)| + (if Opinion(st, rep, h, first.value) == v then 1 else 0)
      {
        AmongMore(st, rep, who, first.value, h, v);
      }
    }
  }

  lemma OneMoreId(mem: NodeList, n: nat)
    requires 0 < n <= |mem| && DuplicateFree(mem)
    ensures !Has(mem[..n - 1], mem[n - 1].nodeId)
    ensures forall id: u32 :: Has(mem[..n], id) <==> Has(mem[..n - 1], id) || id == mem[n - 1].nodeId
  {
    forall id: u32
      ensures Has(mem[..n], id) <==> Has(mem[..n - 1], id) || id == mem[n - 1].nodeId
    {
      if Has(mem[..n - 1], id) {
        var k :| 0 <= k < n - 1 && mem[..n - 1][k].nodeId == id;
        assert mem[..n][k].nodeId == id;
      }
      assert mem[..n][n - 1] == mem[n - 1];
    }
  }

  /** One more node in the partition is one more client if it is connected. */
  lemma OneMore(st: State, c: int, init: NodeList, mem: NodeList, last: u32)
    requires DistinctIds(st, c) && !Has(init, last)
    requires forall id: u32 :: Has(mem, id) <==> Has(init, id) || id == last
    ensures match FirstActive(st, c, last, |st.sessions|)
            case None => Connected(st, c, mem) == Connected(st, c, init)
            case Some(i) => i !in Connected(st, c, init) && Connected(st, c, mem) == Connected(st, c, init) + {i}
  {
    FirstActiveFinds(st, c, last, |st.sessions|);
  }
}
