/** What a client reports is weighed before it is stored. When does the decision come out as if it had
    been stored first? */
module Reports {
  import opened Wire
  import opened Msg
  import opened ServerState
  import opened Stability
  import opened Selection
  import opened ArgMax
  import opened SlotOrder
  import opened Merit
  import opened Votes

  /** A session with other lists, ring or heuristics result. */
  predicate Revises(s: Session, s': Session) {
    s' == s.(ring := s'.ring, config := s'.config, membership := s'.membership, heuristics := s'.heuristics)
  }

  /** An active member reports what `s'` says beyond its stored session. */
  predicate Offers(st: State, slot: nat, s': Session) {
    && slot < |st.sessions| && st.sessions[slot].phase == Active && 0 <= st.sessions[slot].cluster < |st.clusters|
    && Revises(st.sessions[slot], s')
  }

  /** The view the report gives: the sender as `s'`, everybody else as stored. */
  function View(slot: nat, s': Session): (tv: Trigger) {
    Trigger(slot, false, s'.ring, s'.config, s'.membership, s'.heuristics)
  }

  /** The views of a report before and after it is stored. */
  lemma SameViews(st: State, slot: nat, s': Session)
    requires Offers(st, slot, s')
    ensures var (st1, tv) := (SetSession(st, slot, s'), View(slot, s'));
            && ValidTrigger(st, tv) && ValidTrigger(st1, tv) && TriggerCluster(st1, tv) == TriggerCluster(st, tv)
            && StoredTrigger(st1, slot, false) == tv
            && (forall c, i :: InCluster(st1, c, i) <==> InCluster(st, c, i))
            && (forall i :: Takes(st1, tv, i) <==> Takes(st, tv, i))
            && (forall i :: 0 <= i < |st.sessions| ==> SameView(st, st1, tv, i))
  {
  }

  /** Client `i` looks the same in both. */
  predicate SameView(st: State, st1: State, tv: Trigger, i: nat)
    requires i < |st.sessions| && i < |st1.sessions|
  {
    && EffConfig(st1, tv, i) == EffConfig(st, tv, i) && EffMembership(st1, tv, i) == EffMembership(st, tv, i)
    && EffRing(st1, tv, i) == EffRing(st, tv, i) && EffHeuristics(st1, tv, i) == EffHeuristics(st, tv, i)
    && st1.sessions[i].nodeId == st.sessions[i].nodeId && st1.sessions[i].tieBreaker == st.sessions[i].tieBreaker
    && st1.sessions[i].keepActive == st.sessions[i].keepActive && st1.sessions[i].cluster == st.sessions[i].cluster
  }

  /** Whether the membership is stable does not depend on it. */
  lemma StableAsStored(st: State, slot: nat, s': Session)
    requires Offers(st, slot, s')
    ensures ValidTrigger(st, View(slot, s')) && ValidTrigger(SetSession(st, slot, s'), View(slot, s'))
    ensures Stable(SetSession(st, slot, s'), View(slot, s')) <==> Stable(st, View(slot, s'))
  {
    SameViews(st, slot, s');
    var (st1, tv) := (SetSession(st, slot, s'), View(slot, s'));
    forall j
      ensures FirstOfId(st1, tv, j) <==> FirstOfId(st, tv, j)
    {
      assert Takes(st, tv, j) ==> SameView(st, st1, tv, j);
    }
    forall i, j | 0 <= i < |st.sessions| && 0 <= j < |st.sessions|
      ensures Agrees(st1, tv, i, j) <==> Agrees(st, tv, i, j)
    {
      assert SameView(st, st1, tv, i) && SameView(st, st1, tv, j);
    }
    SameConfigsAsStored(st, st1, tv);
  }

  lemma SameConfigsAsStored(st: State, st1: State, tv: Trigger)
    requires ValidTrigger(st, tv) && ValidTrigger(st1, tv) && |st1.sessions| == |st.sessions|
    requires forall i :: Takes(st1, tv, i) <==> Takes(st, tv, i)
    requires forall i :: 0 <= i < |st.sessions| ==> SameView(st, st1, tv, i)
    ensures SameConfigs(st1, tv) <==> SameConfigs(st, tv)
  {
    forall i | 0 <= i < |st.sessions|
      ensures EffConfig(st1, tv, i) == EffConfig(st, tv, i)
    {
      assert SameView(st, st1, tv, i);
    }
  }

  // ---------------------------------------------------------------- what others say of the sender

  /** What a result is worth: one more for a pass, one less for a failure. */
  function Swing(h: Heuristics): (n: int) {
    match h
    case Fail => -1
    case HeurUndefined => 0
    case Pass => 1
  }

  lemma CrowdAsStored(st: State, slot: nat, s': Session, i: nat)
    requires Offers(st, slot, s') && i < |st.sessions|
    ensures Crowd(SetSession(st, slot, s'), View(slot, s'), i) == Crowd(st, View(slot, s'), i)
  {
    SameViews(st, slot, s');
    assert SameView(st, SetSession(st, slot, s'), View(slot, s'), i);
  }

  /** Those in the crowd of `i` with result `v`, the sender of the report left out. */
  lemma SayingAsStored(st: State, slot: nat, s': Session, i: nat, v: Heuristics)
    requires Offers(st, slot, s') && i < |st.sessions| && i != slot
    ensures var (st1, tv) := (SetSession(st, slot, s'), View(slot, s'));
            && Saying(st1, tv, i, v) - {slot} == Saying(st, tv, i, v) - {slot}
            && (slot in Saying(st, tv, i, v) <==> slot in Crowd(st, tv, i) && st.sessions[slot].heuristics == v)
            && (slot in Saying(st1, tv, i, v) <==> slot in Crowd(st, tv, i) && s'.heuristics == v)
  {
    CrowdAsStored(st, slot, s', i);
    SameViews(st, slot, s');
    assert SameView(st, SetSession(st, slot, s'), View(slot, s'), i);
  }

  lemma CountWithout(a: set<int>, x: int)
    ensures |a| == |a - {x}| + (if x in a then 1 else 0)
  {
    if x in a {
      assert a == (a - {x}) + {x};
    } else {
      assert a == a - {x};
    }
  }

  lemma OwnSaying(st: State, slot: nat, s': Session, v: Heuristics)
    requires Offers(st, slot, s')
    ensures Saying(SetSession(st, slot, s'), View(slot, s'), slot, v) == Saying(st, View(slot, s'), slot, v)
  {
    CrowdAsStored(st, slot, s', slot);
  }

  /** How many in the crowd of `i` have result `v`, before and after. */
  lemma CountSaying(st: State, slot: nat, s': Session, i: nat, v: Heuristics)
    requires Offers(st, slot, s') && i < |st.sessions|
    ensures var (st1, tv) := (SetSession(st, slot, s'), View(slot, s'));
            |Saying(st1, tv, i, v)| - |Saying(st, tv, i, v)|
            == if i == slot || slot !in Crowd(st, tv, i) then 0
               else (if s'.heuristics == v then 1 else 0) - (if st.sessions[slot].heuristics == v then 1 else 0)
  {
    var (st1, tv) := (SetSession(st, slot, s'), View(slot, s'));
    if i == slot {
      OwnSaying(st, slot, s', v);
    } else {
      SayingAsStored(st, slot, s', i, v);
      CountWithout(Saying(st, tv, i, v), slot);
      CountWithout(Saying(st1, tv, i, v), slot);
    }
  }

  /** Its own standing a client sees with the new result at once; in the standing of a fellow of its
      partition the new result counts once it is stored. */
  lemma StandingAsStored(st: State, slot: nat, s': Session, i: nat)
    requires Offers(st, slot, s') && i < |st.sessions|
    ensures var (st1, tv) := (SetSession(st, slot, s'), View(slot, s'));
            Standing(st1, tv, i) == Standing(st, tv, i)
                                    + if i != slot && slot in Crowd(st, tv, i)
                                      then Swing(s'.heuristics) - Swing(st.sessions[slot].heuristics) else 0
  {
    CrowdAsStored(st, slot, s', i);
    CountSaying(st, slot, s', i, Pass);
    CountSaying(st, slot, s', i, Fail);
  }

  /** A client is weighed as if the report had been stored first if and only if it is the sender, or
      has no use for the sender, or the result is the one already stored. */
  lemma WeighedAsStoredIff(st: State, slot: nat, s': Session, i: nat)
    requires Offers(st, slot, s') && i < |st.sessions|
    requires DuplicateFree(EffMembership(st, View(slot, s'), i)) && DistinctIds(st, st.sessions[i].cluster)
    ensures var (st1, tv) := (SetSession(st, slot, s'), View(slot, s'));
            CandidateStats(st1, tv, i) == CandidateStats(st, tv, i)
            <==> i == slot || slot !in Crowd(st, tv, i) || s'.heuristics == st.sessions[slot].heuristics
  {
    var (st1, tv) := (SetSession(st, slot, s'), View(slot, s'));
    CountedAsStored(st, slot, s', i);
    CrowdIsCounted(st, tv, i);
    CrowdAsStored(st, slot, s', i);
    CountSaying(st, slot, s', i, Pass);
    CountSaying(st, slot, s', i, Fail);
  }

  lemma CountedAsStored(st: State, slot: nat, s': Session, i: nat)
    requires Offers(st, slot, s') && i < |st.sessions|
    requires DuplicateFree(EffMembership(st, View(slot, s'), i)) && DistinctIds(st, st.sessions[i].cluster)
    ensures var (st1, tv) := (SetSession(st, slot, s'), View(slot, s'));
            CandidateStats(st1, tv, i)
            == Stats(|Crowd(st1, tv, i)|, |Saying(st1, tv, i, Pass)|, |Saying(st1, tv, i, Fail)|)
  {
    SameViews(st, slot, s');
    assert SameView(st, SetSession(st, slot, s'), View(slot, s'), i);
    CrowdIsCounted(SetSession(st, slot, s'), View(slot, s'), i);
  }

  // ---------------------------------------------------------------- the winner

  /** Nobody else's partition counts the sender, or its result is not news. */
  ghost predicate NoNewsToOthers(st: State, slot: nat, s': Session)
    requires slot < |st.sessions|
  {
    || s'.heuristics == st.sessions[slot].heuristics
    || forall i :: 0 <= i < |st.sessions| && i != slot && InCluster(st, st.sessions[slot].cluster, i) ==>
         !Has(st.sessions[i].membership, st.sessions[slot].nodeId)
  }

  lemma {:induction false} StatsAsStored(st: State, slot: nat, s': Session, i: nat, n: nat)
    requires Offers(st, slot, s') && i < |st.sessions| && InCluster(st, st.sessions[slot].cluster, i)
    requires NoNewsToOthers(st, slot, s') && n <= |EffMembership(st, View(slot, s'), i)|
    ensures var (st1, tv) := (SetSession(st, slot, s'), View(slot, s'));
            StatsUpTo(st1, i, EffMembership(st, tv, i), n, EffHeuristics(st, tv, i))
            == StatsUpTo(st, i, EffMembership(st, tv, i), n, EffHeuristics(st, tv, i))
  {
    if n > 0 {
      var (st1, tv) := (SetSession(st, slot, s'), View(slot, s'));
      var c, id := st.sessions[i].cluster, EffMembership(st, tv, i)[n - 1].nodeId;
      StatsAsStored(st, slot, s', i, n - 1);
      FirstAsStored(st, slot, s', c, id, |st.sessions|);
      FirstActiveFinds(st, c, id, |st.sessions|);
    }
  }

  lemma {:induction false} FirstAsStored(st: State, slot: nat, s': Session, c: int, id: u32, k: nat)
    requires Offers(st, slot, s') && k <= |st.sessions|
    ensures FirstActive(SetSession(st, slot, s'), c, id, k) == FirstActive(st, c, id, k)
  {
    if k > 0 {
      FirstAsStored(st, slot, s', c, id, k - 1);
    }
  }

  lemma BetterAsStored(st: State, slot: nat, s': Session, i: nat, best: Option<nat>)
    requires Offers(st, slot, s') && NoNewsToOthers(st, slot, s')
    requires ValidTrigger(st, View(slot, s')) && ValidTrigger(SetSession(st, slot, s'), View(slot, s'))
    requires Candidate(st, View(slot, s'), i) && Candidate(SetSession(st, slot, s'), View(slot, s'), i)
    requires best.Some? ==> best.value < |st.sessions| && Candidate(st, View(slot, s'), best.value)
    ensures Better(SetSession(st, slot, s'), View(slot, s'), i, best) <==> Better(st, View(slot, s'), i, best)
  {
    var (st1, tv) := (SetSession(st, slot, s'), View(slot, s'));
    SameViews(st, slot, s');
    assert SameView(st, st1, tv, i);
    StatsAsStored(st, slot, s', i, |EffMembership(st, tv, i)|);
    if best.Some? {
      assert SameView(st, st1, tv, best.value);
      StatsAsStored(st, slot, s', best.value, |EffMembership(st, tv, best.value)|);
    }
    KeptAsStored(st, slot, s');
  }

  lemma KeptAsStored(st: State, slot: nat, s': Session)
    requires Offers(st, slot, s')
    ensures forall c :: KeepActive(SetSession(st, slot, s'), c) <==> KeepActive(st, c)
  {
    SameViews(st, slot, s');
    var (st1, tv) := (SetSession(st, slot, s'), View(slot, s'));
    forall i | 0 <= i < |st.sessions|
      ensures st1.sessions[i].keepActive == st.sessions[i].keepActive
    {
      assert SameView(st, st1, tv, i);
    }
  }

  /** One comparison of the walk. */
  lemma WalkAsStored(st: State, slot: nat, s': Session, k: nat, best: Option<nat>)
    requires Offers(st, slot, s') && NoNewsToOthers(st, slot, s') && k < |st.sessions|
    requires ValidTrigger(st, View(slot, s')) && ValidTrigger(SetSession(st, slot, s'), View(slot, s'))
    requires best.Some? ==> best.value < |st.sessions| && Candidate(st, View(slot, s'), best.value)
    ensures var (st1, tv) := (SetSession(st, slot, s'), View(slot, s'));
            Candidate(st1, tv, k) && Better(st1, tv, k, best) <==> Candidate(st, tv, k) && Better(st, tv, k, best)
  {
    var (st1, tv) := (SetSession(st, slot, s'), View(slot, s'));
    SameViews(st, slot, s');
    assert SameView(st, st1, tv, k);
    if Candidate(st, tv, k) {
      BetterAsStored(st, slot, s', k, best);
    }
  }

  lemma TakesOverAsStored(st: State, slot: nat, s': Session, st1: State, tv: Trigger, k: nat, best: Option<nat>)
    requires Offers(st, slot, s') && NoNewsToOthers(st, slot, s') && 0 < k <= |st.sessions| == |st1.sessions|
    requires st1 == SetSession(st, slot, s') && tv == View(slot, s') && ValidTrigger(st, tv) && ValidTrigger(st1, tv)
    requires best.Some? ==> best.value < |st.sessions| && Candidate(st, tv, best.value)
    ensures TakesOver(st1, tv, k, best) <==> TakesOver(st, tv, k, best)
  {
    WalkAsStored(st, slot, s', k - 1, best);
  }

  lemma WalkNext(st: State, slot: nat, s': Session, st1: State, tv: Trigger, k: nat)
    requires Offers(st, slot, s') && NoNewsToOthers(st, slot, s') && 0 < k <= |st.sessions| == |st1.sessions|
    requires st1 == SetSession(st, slot, s') && tv == View(slot, s') && ValidTrigger(st, tv) && ValidTrigger(st1, tv)
    requires Select(st1, tv, k - 1) == Select(st, tv, k - 1)
    ensures Select(st1, tv, k) == Select(st, tv, k)
  {
    var best := Select(st, tv, k - 1);
    TakesOverAsStored(st, slot, s', st1, tv, k, best);
    SelectAlike(st1, tv, st, tv, k, best);
  }

  lemma {:induction false} SelectAsStored(st: State, slot: nat, s': Session, st1: State, tv: Trigger, k: nat)
    requires Offers(st, slot, s') && NoNewsToOthers(st, slot, s') && k <= |st.sessions| == |st1.sessions|
    requires st1 == SetSession(st, slot, s') && tv == View(slot, s') && ValidTrigger(st, tv) && ValidTrigger(st1, tv)
    ensures Select(st1, tv, k) == Select(st, tv, k)
  {
    if k > 0 {
      SelectAsStored(st, slot, s', st1, tv, k - 1);
      WalkNext(st, slot, s', st1, tv, k);
    }
  }

  /** The decision comes out as if the report had been stored first, when its heuristics result is no
      news to anybody but the sender. */
  lemma DecidedAsStored(st: State, slot: nat, s': Session)
    requires Offers(st, slot, s') && NoNewsToOthers(st, slot, s')
    ensures ValidTrigger(st, View(slot, s')) && ValidTrigger(SetSession(st, slot, s'), View(slot, s'))
    ensures Winner(SetSession(st, slot, s'), View(slot, s')) == Winner(st, View(slot, s'))
  {
    SameViews(st, slot, s');
    SelectAsStored(st, slot, s', SetSession(st, slot, s'), View(slot, s'), |st.sessions|);
    var best := Select(st, View(slot, s'), |st.sessions|);
    if best.Some? {
      assert SameView(st, SetSession(st, slot, s'), View(slot, s'), best.value);
    }
  }
}
