/** The partition the selection walk picks, stated without the walk: a quorate partition exists
    exactly when some client offers half the configuration, and the one picked is the lexicographic
    best of majority, score, connected clients, previously quorate and preferred node. */
module ArgMax {
  import opened Wire
  import opened ServerState
  import opened Stability
  import opened Selection

  /** Slot `i` offers at least half of its configuration. */
  predicate Eligible(st: State, tv: Trigger, i: int)
    requires ValidTrigger(st, tv)
  {
    Candidate(st, tv, i) && 2 * |EffMembership(st, tv, i)| >= |EffConfig(st, tv, i)|
  }

  /** Slot `i` offers more than half of its configuration. */
  predicate Major(st: State, tv: Trigger, i: nat)
    requires i < |st.sessions|
  {
    2 * |EffMembership(st, tv, i)| > |EffConfig(st, tv, i)|
  }

  // ---------------------------------------------------------------- when is there a winner

  /** A client that names itself is counted among the connected members of its own partition. */
  lemma {:induction false} CountsItself(st: State, rep: nat, mem: NodeList, n: nat, k: nat, h: Heuristics)
    requires rep < |st.sessions| && st.sessions[rep].phase == Active
    requires k < n <= |mem| && mem[k].nodeId == st.sessions[rep].nodeId
    ensures StatsUpTo(st, rep, mem, n, h).clients > 0
  {
    if k < n - 1 {
      CountsItself(st, rep, mem, n - 1, k, h);
    } else {
      FirstActiveFinds(st, st.sessions[rep].cluster, st.sessions[rep].nodeId, |st.sessions|);
      assert InCluster(st, st.sessions[rep].cluster, rep);
    }
  }

  /** Whoever wins a comparison offers at least half of its configuration. */
  lemma BetterIsEligible(st: State, tv: Trigger, i: nat, best: Option<nat>)
    requires ValidTrigger(st, tv) && Candidate(st, tv, i) && (best.Some? ==> best.value < |st.sessions|)
    requires Better(st, tv, i, best)
    ensures Eligible(st, tv, i)
  {
  }

  /** The first client to offer half of its configuration beats having nobody. */
  lemma BeatsNobody(st: State, tv: Trigger, i: nat)
    requires ValidTrigger(st, tv) && SelfMembership(st, tv) && Eligible(st, tv, i)
    ensures Better(st, tv, i, None)
  {
    var mem := EffMembership(st, tv, i);
    var k :| 0 <= k < |mem| && mem[k].nodeId == st.sessions[i].nodeId;
    CountsItself(st, i, mem, |mem|, k, EffHeuristics(st, tv, i));
    OutranksNobody(|EffConfig(st, tv, i)|, |EffMembership(st, tv, i)|, CandidateStats(st, tv, i),
                   TieGoesTo(st, tv, i, None));
  }

  /** Heuristics cannot take more than the connected clients away. */
  lemma OutranksNobody(n: nat, m: nat, t: Stats, tie: bool)
    requires 2 * m >= n && t.pass + t.fail <= t.clients && t.clients > 0
    ensures Outranks(n, m, t, Stats(0, 0, 0), tie)
  {
  }

  ghost predicate AnyEligible(st: State, tv: Trigger, k: nat)
    requires ValidTrigger(st, tv)
  {
    exists i :: 0 <= i < k && Eligible(st, tv, i)
  }

  /** The outcome of one comparison of the walk. */
  ghost predicate Walks(st: State, tv: Trigger, i: nat, best: Option<nat>, next: Option<nat>)
    requires ValidTrigger(st, tv) && (best.Some? ==> best.value < |st.sessions|)
  {
    next == if Candidate(st, tv, i) && Better(st, tv, i, best) then Some(i) else best
  }

  lemma WalkEligible(st: State, tv: Trigger, i: nat, best: Option<nat>, next: Option<nat>)
    requires ValidTrigger(st, tv) && SelfMembership(st, tv) && (best.Some? ==> Eligible(st, tv, best.value))
    requires Walks(st, tv, i, best, next)
    ensures next.Some? <==> best.Some? || Eligible(st, tv, i)
    ensures next.Some? ==> Eligible(st, tv, next.value)
  {
    if next == Some(i) && next != best {
      BetterIsEligible(st, tv, i, best);
    } else if Eligible(st, tv, i) && best.None? {
      BeatsNobody(st, tv, i);
    }
  }

  lemma {:induction false} SelectEligible(st: State, tv: Trigger, k: nat)
    requires ValidTrigger(st, tv) && SelfMembership(st, tv) && k <= |st.sessions|
    ensures Select(st, tv, k).Some? <==> AnyEligible(st, tv, k)
    ensures Select(st, tv, k).Some? ==> Eligible(st, tv, Select(st, tv, k).value)
  {
    if k > 0 {
      SelectEligible(st, tv, k - 1);
      WalkEligible(st, tv, k - 1, Select(st, tv, k - 1), Select(st, tv, k));
      assert AnyEligible(st, tv, k) <==> AnyEligible(st, tv, k - 1) || Eligible(st, tv, k - 1);
    }
  }

  /** A quorate partition is selected if and only if some participant with both lists offers at
      least half of its configuration, and the one selected does. */
  lemma QuorateIff(st: State, tv: Trigger)
    requires ValidTrigger(st, tv) && SelfMembership(st, tv)
    ensures Winner(st, tv).Some? <==> exists i :: Eligible(st, tv, i)
    ensures Winner(st, tv).Some? ==>
              exists i :: Eligible(st, tv, i) && Winner(st, tv).value == EffMembership(st, tv, i)
  {
    SelectEligible(st, tv, |st.sessions|);
    assert AnyEligible(st, tv, |st.sessions|) <==> exists i :: Eligible(st, tv, i);
  }

  // ---------------------------------------------------------------- the key

  /** What the comparison looks at, most significant first. */
  datatype Key = Key(major: bool, score: int, clients: nat, active: bool, preferred: bool)

  predicate Less(a: Key, b: Key) {
    if a.major != b.major then b.major
    else if a.score != b.score then a.score < b.score
    else if a.clients != b.clients then a.clients < b.clients
    else if a.active != b.active then b.active
    else b.preferred && !a.preferred
  }

  /** A majority is not compared further. */
  ghost function KeyOf(st: State, tv: Trigger, i: nat): (k: Key)
    requires ValidTrigger(st, tv) && Candidate(st, tv, i)
  {
    if Major(st, tv, i) then Key(true, 0, 0, false, false)
    else
      var c := TriggerCluster(st, tv);
      var t := CandidateStats(st, tv, i);
      Key(false, Score(t), t.clients,
          KeepActive(st, c) && Has(st.clusters[c].quorate, st.sessions[i].nodeId),
          Has(EffMembership(st, tv, i), PreferredId(st.sessions[i].tieBreaker, EffConfig(st, tv, i))))
  }

  /** The comparison of the walk is the order of the keys; of two equal ones the later wins when it
      is a majority or preferred, the earlier otherwise. */
  lemma BetterIsLess(st: State, tv: Trigger, i: nat, b: nat)
    requires ValidTrigger(st, tv) && Eligible(st, tv, i) && Eligible(st, tv, b)
    requires Major(st, tv, i) == Major(st, tv, b)
    ensures var (ki, kb) := (KeyOf(st, tv, i), KeyOf(st, tv, b));
            Better(st, tv, i, Some(b)) <==> Less(kb, ki) || (ki == kb && Replaces(ki))
  {
  }

  /** All clients that offer half agree on whether it is a majority. */
  ghost predicate OneSize(st: State, tv: Trigger)
    requires ValidTrigger(st, tv)
  {
    forall i, j :: Eligible(st, tv, i) && Eligible(st, tv, j) ==> Major(st, tv, i) == Major(st, tv, j)
  }

  /** Ties go to the later of two clients with this key. */
  predicate Replaces(k: Key) {
    k.major || k.preferred
  }

  /** A client with key `k` yields to one with key `best`, coming `before` it or not. */
  predicate Yields(k: Key, best: Key, before: bool) {
    !Less(best, k) && (before && k == best ==> Replaces(best))
  }

  lemma YieldsOn(k: Key, best: Key, next: Key, before: bool)
    requires Yields(k, best, before) && (Less(best, next) || (next == best && Replaces(next)))
    ensures Yields(k, next, true)
  {
  }

  /** No eligible client among the first `k` slots has a greater key than `b`, and none before `b`
      has an equal one unless ties go to the later. */
  ghost predicate Best(st: State, tv: Trigger, k: nat, b: nat)
    requires ValidTrigger(st, tv) && Candidate(st, tv, b)
  {
    forall i :: 0 <= i < k && Eligible(st, tv, i) ==> Yields(KeyOf(st, tv, i), KeyOf(st, tv, b), i < b)
  }

  lemma WalkIsBest(st: State, tv: Trigger, i: nat, best: nat, next: Option<nat>)
    requires ValidTrigger(st, tv) && OneSize(st, tv) && Eligible(st, tv, best) && best < i
    requires Walks(st, tv, i, Some(best), next) && Best(st, tv, i, best)
    ensures next.Some? && Candidate(st, tv, next.value) && Best(st, tv, i + 1, next.value)
  {
    if Candidate(st, tv, i) && Better(st, tv, i, Some(best)) {
      BetterIsEligible(st, tv, i, Some(best));
      BetterIsLess(st, tv, i, best);
      forall j | 0 <= j < i + 1 && Eligible(st, tv, j)
        ensures Yields(KeyOf(st, tv, j), KeyOf(st, tv, i), j < i)
      {
        if j < i {
          YieldsOn(KeyOf(st, tv, j), KeyOf(st, tv, best), KeyOf(st, tv, i), j < best);
        }
      }
    } else if Eligible(st, tv, i) {
      BetterIsLess(st, tv, i, best);
    }
  }

  lemma StepIsBest(st: State, tv: Trigger, k: nat, best: nat)
    requires ValidTrigger(st, tv) && OneSize(st, tv) && 0 < k <= |st.sessions|
    requires Select(st, tv, k - 1) == Some(best) && Eligible(st, tv, best) && Best(st, tv, k - 1, best)
    ensures Select(st, tv, k).Some? && Best(st, tv, k, Select(st, tv, k).value)
  {
    WalkIsBest(st, tv, k - 1, best, Select(st, tv, k));
  }

  /** The walk keeps the best key. */
  lemma {:induction false} SelectIsBest(st: State, tv: Trigger, k: nat)
    requires ValidTrigger(st, tv) && SelfMembership(st, tv) && OneSize(st, tv) && k <= |st.sessions|
    requires Select(st, tv, k).Some?
    ensures Best(st, tv, k, Select(st, tv, k).value)
  {
    SelectEligible(st, tv, k - 1);
    var best := Select(st, tv, k - 1);
    if best.Some? {
      SelectIsBest(st, tv, k - 1);
      StepIsBest(st, tv, k, best.value);
    } else {
      FirstIsBest(st, tv, k);
    }
  }

  lemma FirstIsBest(st: State, tv: Trigger, k: nat)
    requires ValidTrigger(st, tv) && 0 < k <= |st.sessions|
    requires Select(st, tv, k - 1) == None && Select(st, tv, k).Some? && !AnyEligible(st, tv, k - 1)
    ensures Best(st, tv, k, Select(st, tv, k).value)
  {
    assert Select(st, tv, k).value == k - 1;
    forall i | 0 <= i < k && Eligible(st, tv, i)
      ensures i == k - 1
    {
      assert !(i < k - 1);
    }
  }
}
