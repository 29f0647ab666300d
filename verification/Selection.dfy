/** Which partition wins: the per-partition statistics, the pairwise comparison and the walk over
    the slots that keeps the best client seen so far. */
module Selection {
  import opened Wire
  import opened ServerState

  /** The first of the slots `0..k`, in slot order, active in cluster `c` with node id `id`. */
  function FirstActive(st: State, c: int, id: u32, k: nat): (r: Option<nat>)
    requires k <= |st.sessions|
    ensures r.Some? ==> r.value < k
    decreases k
  {
    if k == 0 then None
    else
      var r := FirstActive(st, c, id, k - 1);
      if r.Some? then r
      else if InCluster(st, c, k - 1) && st.sessions[k - 1].nodeId == id then Some(k - 1)
      else None
  }

  lemma {:induction false} FirstActiveFinds(st: State, c: int, id: u32, k: nat)
    requires k <= |st.sessions|
    ensures match FirstActive(st, c, id, k)
            case Some(r) =>
              && InCluster(st, c, r) && st.sessions[r].nodeId == id
              && forall i :: 0 <= i < r && InCluster(st, c, i) ==> st.sessions[i].nodeId != id
            case None => forall i :: 0 <= i < k && InCluster(st, c, i) ==> st.sessions[i].nodeId != id
  {
    if k > 0 {
      FirstActiveFinds(st, c, id, k - 1);
    }
  }

  datatype Stats = Stats(clients: nat, pass: nat, fail: nat)

  /** Score of a partition: clients + pass - fail. */
  function Score(t: Stats): (r: int) {
    t.clients + (t.pass - t.fail)
  }

  /** Connected, passing and failing ones among the first `n` nodes of `mem`, the heuristics of the
      representative `rep` replaced by `h`. Never more votes on heuristics than connected nodes. */
  function StatsUpTo(st: State, rep: nat, mem: NodeList, n: nat, h: Heuristics): (t: Stats)
    requires rep < |st.sessions| && n <= |mem|
    ensures t.pass + t.fail <= t.clients <= n
  {
    if n == 0 then Stats(0, 0, 0)
    else
      var t := StatsUpTo(st, rep, mem, n - 1, h);
      match FirstActive(st, st.sessions[rep].cluster, mem[n - 1].nodeId, |st.sessions|)
      case None => t
      case Some(i) =>
        var e := if i == rep then h else st.sessions[i].heuristics;
        Stats(t.clients + 1,
              t.pass + (if e == Pass then 1 else 0),
              t.fail + (if e == Fail then 1 else 0))
  }

  function PartitionStats(st: State, rep: nat, mem: NodeList, h: Heuristics): (t: Stats)
    requires rep < |st.sessions|
    ensures t.pass + t.fail <= t.clients <= |mem|
  {
    StatsUpTo(st, rep, mem, |mem|, h)
  }

  function LowestId(l: NodeList): (r: u32)
    requires l != []
  {
    if |l| == 1 then l[0].nodeId
    else
      var r := LowestId(l[..|l| - 1]);
      if l[|l| - 1].nodeId < r then l[|l| - 1].nodeId else r
  }

  function HighestId(l: NodeList): (r: u32)
    requires l != []
  {
    if |l| == 1 then l[0].nodeId
    else
      var r := HighestId(l[..|l| - 1]);
      if l[|l| - 1].nodeId > r then l[|l| - 1].nodeId else r
  }

  lemma {:induction false} ExtremeIds(l: NodeList)
    requires l != []
    ensures LowestId(l) in Ids(l) && forall id :: id in Ids(l) ==> LowestId(l) <= id
    ensures HighestId(l) in Ids(l) && forall id :: id in Ids(l) ==> id <= HighestId(l)
  {
    var init, last := l[..|l| - 1], l[|l| - 1].nodeId;
    if |l| > 1 {
      ExtremeIds(init);
      assert forall id :: Has(l, id) <==> Has(init, id) || id == last;
    }
  }

  /** The node id the tie-breaker prefers in a configuration. */
  function PreferredId(tb: TieBreaker, cfg: NodeList): (r: u32)
    requires cfg != []
  {
    match tb.mode
    case Lowest => LowestId(cfg)
    case Highest => HighestId(cfg)
    case ByNodeId => tb.nodeId
  }

  /** Slot `i` offers a partition: it participates and has both lists. */
  predicate Candidate(st: State, tv: Trigger, i: int)
    requires ValidTrigger(st, tv)
  {
    Takes(st, tv, i) && EffConfig(st, tv, i) != [] && EffMembership(st, tv, i) != []
  }

  function CandidateStats(st: State, tv: Trigger, i: nat): (t: Stats)
    requires i < |st.sessions|
  {
    PartitionStats(st, i, EffMembership(st, tv, i), EffHeuristics(st, tv, i))
  }

  /** The keep-active tie-breaker applies when no member of the cluster switched it off. */
  ghost predicate KeepActive(st: State, c: int) {
    forall i :: InCluster(st, c, i) ==> st.sessions[i].keepActive
  }

  /** A partition of `m` out of `n` configured nodes with statistics `t` against a best one with
      statistics `u`; `tie` settles equal statistics. Only an exact half looks at statistics. */
  predicate Outranks(n: nat, m: nat, t: Stats, u: Stats, tie: bool) {
    if n % 2 != 0 then m > n / 2
    else if m > n / 2 then true
    else if m < n / 2 then false
    else if Score(t) != Score(u) then Score(t) > Score(u)
    else if t.clients != u.clients then t.clients > u.clients
    else tie
  }

  /** Equal statistics: a client of the previously quorate partition is kept, then the preferred
      node decides. */
  ghost predicate TieGoesTo(st: State, tv: Trigger, i: nat, best: Option<nat>)
    requires ValidTrigger(st, tv) && Candidate(st, tv, i)
    requires best.Some? ==> best.value < |st.sessions|
  {
    var c := TriggerCluster(st, tv);
    var q := st.clusters[c].quorate;
    if KeepActive(st, c) && best.Some? && Has(q, st.sessions[i].nodeId) != Has(q, st.sessions[best.value].nodeId)
    then Has(q, st.sessions[i].nodeId)
    else Has(EffMembership(st, tv, i), PreferredId(st.sessions[i].tieBreaker, EffConfig(st, tv, i)))
  }

  /** Does the partition of slot `i` beat the best one so far? */
  ghost predicate Better(st: State, tv: Trigger, i: nat, best: Option<nat>)
    requires ValidTrigger(st, tv) && Candidate(st, tv, i)
    requires best.Some? ==> best.value < |st.sessions|
  {
    Outranks(|EffConfig(st, tv, i)|, |EffMembership(st, tv, i)|, CandidateStats(st, tv, i),
             if best.None? then Stats(0, 0, 0) else CandidateStats(st, tv, best.value),
             TieGoesTo(st, tv, i, best))
  }

  /** The best candidate among the first `k` slots. */
  ghost function Select(st: State, tv: Trigger, k: nat): (best: Option<nat>)
    requires ValidTrigger(st, tv) && k <= |st.sessions|
    ensures best.Some? ==> best.value < k && Candidate(st, tv, best.value)
  {
    if k == 0 then None
    else
      var best := Select(st, tv, k - 1);
      if Candidate(st, tv, k - 1) && Better(st, tv, k - 1, best) then Some(k - 1) else best
  }

  /** One more slot of the walk. */
  lemma SelectNext(st: State, tv: Trigger, k: nat, best: Option<nat>)
    requires ValidTrigger(st, tv) && 0 < k <= |st.sessions| && best == Select(st, tv, k - 1)
    ensures Select(st, tv, k) == if Candidate(st, tv, k - 1) && Better(st, tv, k - 1, best) then Some(k - 1) else best
  {
  }

  /** The candidate in the last of `k` slots takes over from `best`. */
  ghost predicate TakesOver(st: State, tv: Trigger, k: nat, best: Option<nat>)
    requires ValidTrigger(st, tv) && 0 < k <= |st.sessions| && (best.Some? ==> best.value < |st.sessions|)
  {
    Candidate(st, tv, k - 1) && Better(st, tv, k - 1, best)
  }

  /** Two walks that agreed so far and go on alike. */
  lemma SelectAlike(a: State, av: Trigger, b: State, bv: Trigger, k: nat, best: Option<nat>)
    requires ValidTrigger(a, av) && ValidTrigger(b, bv) && 0 < k <= |a.sessions| == |b.sessions|
    requires best == Select(a, av, k - 1) == Select(b, bv, k - 1)
    requires TakesOver(a, av, k, best) <==> TakesOver(b, bv, k, best)
    ensures Select(a, av, k) == Select(b, bv, k)
  {
    SelectNext(a, av, k, best);
    SelectNext(b, bv, k, best);
  }

  /** The membership list of the selected client, if any. */
  ghost function Winner(st: State, tv: Trigger): (w: Option<NodeList>)
    requires ValidTrigger(st, tv)
    ensures w.Some? ==> exists b :: Candidate(st, tv, b) && w.value == EffMembership(st, tv, b)
  {
    match Select(st, tv, |st.sessions|)
    case None => None
    case Some(b) => Some(EffMembership(st, tv, b))
  }
}
