/** What comes of a report of lists or heuristics, told without its handler: what is stored, whether
    anything is decided and who is told what. Message types are given by number. */
module Outcomes {
  import opened Wire
  import opened Msg
  import opened ServerState
  import opened Stability
  import opened Selection
  import opened Votes
  import opened Protocol
  import opened Invariants
  import opened Effects
  import opened Answers
  import opened Reports

  // ---------------------------------------------------------------- reports

  /** A complete report that names its sender: a configuration, a membership with its ring, or a
      heuristics result. */
  predicate Reporting(s: Session, t: u16, m: Decoded) {
    && m.seqNumberSet
    && (|| (t == 10 && m.listType == Some(Membership) && m.ringSet && s.nodeId in Ids(m.nodes))
        || (t == 10 && (m.listType == Some(InitialConfig) || m.listType == Some(ChangedConfig))
            && s.nodeId in Ids(m.nodes))
        || (t == 16 && m.heuristics != HeurUndefined))
  }

  /** The sender once the report is stored. */
  function Revised(s: Session, t: u16, m: Decoded): (s': Session)
    ensures Revises(s, s')
  {
    if t == 16 then s.(heuristics := m.heuristics)
    else if m.listType == Some(Membership) then s.(membership := m.nodes, ring := m.ring, heuristics := m.heuristics)
    else s.(config := m.nodes)
  }

  /** The report calls for a decision: both lists are there, and it is not the initial configuration. */
  predicate Decisive(s': Session, t: u16, m: Decoded) {
    s'.config != [] && s'.membership != [] && !(t == 10 && m.listType == Some(InitialConfig))
  }

  function ListOf(w: Option<NodeList>): (l: NodeList) {
    if w.Some? then w.value else []
  }

  /** Nobody is sent a vote-info and no voting field changes. */
  ghost predicate NoVotes(a: State, b: State) {
    && |b.sessions| == |a.sessions| && a.out <= b.out && b.decisions == a.decisions
    && forall i :: 0 <= i < |a.sessions| ==> NewVotes(a, b, i) == [] && b.sessions[i].poll == a.sessions[i].poll
  }

  /** Session `i` after the decision for the node ids `won`, taken with or without `losers`: a loser is
      sent a NACK at once, a winner an ACK if there are no losers, each with the next number and the
      ring the recipient has stored. */
  ghost predicate VotedAt(a: State, b: State, won: set<u32>, losers: bool, i: nat)
    requires i < |a.sessions| && i < |b.sessions| && a.out <= b.out
  {
    var next := (a.sessions[i].poll.voteSeq + 1) % 0x1_0000_0000;
    if a.sessions[i].nodeId !in won then
      && NewVotes(a, b, i) == [VoteInfo(next, b.sessions[i].ring, Nack)]
      && b.sessions[i].poll == Poll(SendingNack, next, Nack)
    else if losers then
      NewVotes(a, b, i) == [] && b.sessions[i].poll == a.sessions[i].poll.(ff := SendingAck)
    else
      && NewVotes(a, b, i) == [VoteInfo(next, b.sessions[i].ring, Ack)]
      && b.sessions[i].poll == Poll(SendingAck, next, Ack)
  }

  /** The members of cluster `c` are told the decision for the list `l`, and nobody else is. */
  ghost predicate Told(a: State, b: State, c: nat, l: NodeList) {
    && c < |a.clusters| == |b.clusters| && |b.sessions| == |a.sessions| && a.out <= b.out
    && b.decisions == (a.decisions + 1) % 0x1_0000_0000
    && b.clusters[c].quorate == l
    && (forall d :: 0 <= d < |a.clusters| && d != c ==> b.clusters[d] == a.clusters[d])
    && (forall i :: 0 <= i < |a.sessions| && !InCluster(a, c, i) ==>
          NewVotes(a, b, i) == [] && b.sessions[i].poll == a.sessions[i].poll)
    && var losers := exists i :: InCluster(a, c, i) && a.sessions[i].nodeId !in Ids(l);
       forall i :: InCluster(a, c, i) ==> VotedAt(a, b, Ids(l), losers, i)
  }

  // ---------------------------------------------------------------- running the algorithm

  /** Storing `s'` for the sender after the algorithm ran, and answering. */
  function Stored(st1: State, slot: nat, s': Session, frame: Reply): (b: State)
    requires slot < |st1.sessions|
  {
    Answer(st1, slot, s'.(poll := st1.sessions[slot].poll), frame)
  }

  lemma UnstableOutcome(st: State, slot: nat, s': Session, frame: Reply)
    requires Offers(st, slot, s') && !frame.VoteInfo?
    requires ValidTrigger(st, View(slot, s')) && !Stable(st, View(slot, s'))
    ensures var (st1, v) := FfsplitDo(st, View(slot, s'));
            && v == WaitForReply && slot < |st1.sessions|
            && var b := Stored(st1, slot, s', frame);
               && NoVotes(st, b)
               && b.clusters == st.clusters[st.sessions[slot].cluster :=
                                            st.clusters[st.sessions[slot].cluster].(state := WaitingForStable)]
  {
    var st1 := FfsplitDo(st, View(slot, s')).0;
    var b := Stored(st1, slot, s', frame);
    forall i | 0 <= i < |st.sessions|
      ensures st.out <= b.out && NewVotes(st, b, i) == []
    {
      NewVotesOf(st, st1, [], i);
      AnswerVotes(st, st1, b, Send(slot, frame), i);
    }
  }

  lemma StableOutcome(st: State, slot: nat, s': Session, frame: Reply)
    requires Offers(st, slot, s') && !frame.VoteInfo?
    requires ValidTrigger(st, View(slot, s')) && Stable(st, View(slot, s'))
    ensures var (st1, v) := FfsplitDo(st, View(slot, s'));
            && v == NoChange && slot < |st1.sessions|
            && Told(st, Stored(st1, slot, s', frame), st.sessions[slot].cluster, ListOf(Winner(st, View(slot, s'))))
  {
    var tv := View(slot, s');
    var w := Winner(st, tv);
    var st1 := FfsplitDo(st, tv).0;
    DecisionEffect(st, tv, w);
    ShapeTells(st, tv, w, st1, s', frame);
  }

  lemma ShapeTells(st: State, tv: Trigger, w: Option<NodeList>, st1: State, s': Session, frame: Reply)
    requires ValidTrigger(st, tv) && !tv.leaving && DecisionShape(st, tv, w, st1) && !frame.VoteInfo?
    requires Revises(st.sessions[tv.slot], s') && s'.ring == tv.ring
    ensures Told(st, Stored(st1, tv.slot, s', frame), TriggerCluster(st, tv), ListOf(w))
  {
    var b := Stored(st1, tv.slot, s', frame);
    var c := TriggerCluster(st, tv);
    LosersAre(st, tv, w);
    forall i | 0 <= i < |st.sessions|
      ensures st.out <= b.out
      ensures !InCluster(st, c, i) ==> NewVotes(st, b, i) == [] && b.sessions[i].poll == st.sessions[i].poll
      ensures InCluster(st, c, i) ==> VotedAt(st, b, Ids(ListOf(w)), AnyLoser(st, tv, w), i)
    {
      ShapeAt(st, tv, w, st1, s', frame, i);
      if InCluster(st, c, i) {
        NewsIsVote(st, tv, w, b, i);
      }
    }
  }

  lemma ShapeAt(st: State, tv: Trigger, w: Option<NodeList>, st1: State, s': Session, frame: Reply, i: nat)
    requires ValidTrigger(st, tv) && !tv.leaving && DecisionShape(st, tv, w, st1) && !frame.VoteInfo?
    requires Revises(st.sessions[tv.slot], s') && s'.ring == tv.ring && i < |st.sessions|
    ensures var b := Stored(st1, tv.slot, s', frame);
            && st.out <= b.out && NewVotes(st, b, i) == DecisionNews(st, tv, w, i)
            && b.sessions[i].poll == Decided(st, tv, w, i).poll && b.sessions[i].ring == EffRing(st, tv, i)
  {
    var b := Stored(st1, tv.slot, s', frame);
    DecisionVotes(st, tv, w, st1, i);
    AnswerVotes(st, st1, b, Send(tv.slot, frame), i);
    assert st1.sessions[i] == Decided(st, tv, w, i);
  }

  lemma LosersAre(st: State, tv: Trigger, w: Option<NodeList>)
    requires ValidTrigger(st, tv) && !tv.leaving
    ensures AnyLoser(st, tv, w)
            <==> exists i :: InCluster(st, TriggerCluster(st, tv), i) && st.sessions[i].nodeId !in Ids(ListOf(w))
  {
    WinsIsIn(w);
    forall i
      ensures Takes(st, tv, i) <==> InCluster(st, TriggerCluster(st, tv), i)
    {
    }
  }

  lemma WinsIsIn(w: Option<NodeList>)
    ensures forall id :: Wins(w, id) <==> id in Ids(ListOf(w))
  {
  }

  lemma NewsIsVote(st: State, tv: Trigger, w: Option<NodeList>, b: State, i: nat)
    requires ValidTrigger(st, tv) && i < |st.sessions| == |b.sessions| && st.out <= b.out && Takes(st, tv, i)
    requires NewVotes(st, b, i) == DecisionNews(st, tv, w, i) && b.sessions[i].poll == Decided(st, tv, w, i).poll
    requires b.sessions[i].ring == EffRing(st, tv, i)
    ensures VotedAt(st, b, Ids(ListOf(w)), AnyLoser(st, tv, w), i)
  {
    WinsIsIn(w);
  }

  // ---------------------------------------------------------------- what a report leads to

  /** The vote in the answer to a report: later while a list is missing, wait while the membership is
      not stable, no change once a decision was taken. */
  ghost function VoteDue(st: State, slot: nat, s': Session, t: u16, m: Decoded): (v: Vote)
    requires Offers(st, slot, s')
  {
    StableAsStored(st, slot, s');
    if !Decisive(s', t, m) then AskLater
    else if Stable(SetSession(st, slot, s'), View(slot, s')) then NoChange
    else WaitForReply
  }

  /** The answer to a report. */
  ghost function ReportAnswer(st: State, slot: nat, s': Session, t: u16, m: Decoded): (r: Reply)
    requires Offers(st, slot, s')
  {
    var v := VoteDue(st, slot, s', t, m);
    if t == 10 && m.listType.Some? then NodeListReply(m.seqNumber, m.listType.value, s'.ring, v)
    else HeuristicsChangeReply(true, m.seqNumber, v)
  }

  /** The algorithm run on a report that calls for a decision. */
  ghost function Weighed(st: State, slot: nat, s': Session, t: u16, m: Decoded): (r: (State, Vote))
    requires Offers(st, slot, s')
  {
    StableAsStored(st, slot, s');
    if Decisive(s', t, m) then FfsplitDo(st, View(slot, s')) else (st, AskLater)
  }

  lemma WeighedVote(st: State, slot: nat, s': Session, t: u16, m: Decoded)
    requires Offers(st, slot, s')
    ensures Weighed(st, slot, s', t, m).1 == VoteDue(st, slot, s', t, m)
    ensures VoteStep(st, Weighed(st, slot, s', t, m).0)
  {
    StableAsStored(st, slot, s');
    if Decisive(s', t, m) {
      FfsplitVoteStep(st, View(slot, s'));
    }
  }

  lemma ReportOffers(st: State, slot: nat, t: u16, m: Decoded)
    requires Open(st, slot) && Indexed(st) && st.sessions[slot].phase == Active
    ensures Offers(st, slot, Revised(st.sessions[slot], t, m))
  {
  }

  /** A report is stored and answered, after the algorithm ran on it if it calls for a decision. */
  lemma ReportRuns(st: State, slot: nat, t: u16, m: Decoded, frame: seq<byte>, now: nat, maxRx: u32)
    requires Open(st, slot) && Indexed(st) && st.sessions[slot].phase == Active && Reporting(st.sessions[slot], t, m)
    ensures var s' := Revised(st.sessions[slot], t, m);
            && Offers(st, slot, s')
            && var st1 := Weighed(st, slot, s', t, m).0;
               && slot < |st1.sessions|
               && HandleMsg(st, slot, t, m, frame, now, maxRx)
                  == Stored(st1, slot, s', ReportAnswer(st, slot, s', t, m))
  {
    ReportOffers(st, slot, t, m);
    var s' := Revised(st.sessions[slot], t, m);
    WeighedVote(st, slot, s', t, m);
    Dispatched(st, slot, t, m, frame, now, maxRx);
    if t == 16 {
      HeuristicsRuns(st, slot, m);
    } else if m.listType == Some(Membership) {
      MembershipRuns(st, slot, m);
    } else {
      ConfigRuns(st, slot, m);
    }
  }

  lemma Dispatched(st: State, slot: nat, t: u16, m: Decoded, frame: seq<byte>, now: nat, maxRx: u32)
    requires Open(st, slot) && Indexed(st) && st.sessions[slot].phase == Active && (t == 10 || t == 16)
    ensures HandleMsg(st, slot, t, m, frame, now, maxRx)
            == if t == 10 then HandleNodeList(st, slot, m) else HandleHeuristicsChange(st, slot, m)
  {
  }

  lemma HeuristicsRuns(st: State, slot: nat, m: Decoded)
    requires Open(st, slot) && Indexed(st) && st.sessions[slot].phase == Active && Reporting(st.sessions[slot], 16, m)
    requires Offers(st, slot, Revised(st.sessions[slot], 16, m))
    ensures var s' := Revised(st.sessions[slot], 16, m);
            var (st1, v) := Weighed(st, slot, s', 16, m);
            && slot < |st1.sessions|
            && HandleHeuristicsChange(st, slot, m) == Stored(st1, slot, s', HeuristicsChangeReply(true, m.seqNumber, v))
  {
    var s' := Revised(st.sessions[slot], 16, m);
    WeighedVote(st, slot, s', 16, m);
    var (st1, v) := Weighed(st, slot, s', 16, m);
    assert HeuristicsReceived(st, slot, m.heuristics) == (st1, v);
    assert VoteFieldsOnly(st.sessions[slot], st1.sessions[slot]);
  }

  lemma MembershipRuns(st: State, slot: nat, m: Decoded)
    requires Open(st, slot) && Indexed(st) && st.sessions[slot].phase == Active && Reporting(st.sessions[slot], 10, m)
    requires m.listType == Some(Membership) && Offers(st, slot, Revised(st.sessions[slot], 10, m))
    ensures var s' := Revised(st.sessions[slot], 10, m);
            var (st1, v) := Weighed(st, slot, s', 10, m);
            && slot < |st1.sessions|
            && HandleNodeList(st, slot, m) == Stored(st1, slot, s', NodeListReply(m.seqNumber, Membership, s'.ring, v))
  {
    var s' := Revised(st.sessions[slot], 10, m);
    WeighedVote(st, slot, s', 10, m);
    var (st1, v) := Weighed(st, slot, s', 10, m);
    assert MembershipReceived(st, slot, m) == (st1, v);
    assert VoteFieldsOnly(st.sessions[slot], st1.sessions[slot]);
  }

  lemma ConfigRuns(st: State, slot: nat, m: Decoded)
    requires Open(st, slot) && Indexed(st) && st.sessions[slot].phase == Active && Reporting(st.sessions[slot], 10, m)
    requires m.listType == Some(InitialConfig) || m.listType == Some(ChangedConfig)
    requires Offers(st, slot, Revised(st.sessions[slot], 10, m))
    ensures var s' := Revised(st.sessions[slot], 10, m);
            var (st1, v) := Weighed(st, slot, s', 10, m);
            && slot < |st1.sessions|
            && HandleNodeList(st, slot, m)
               == Stored(st1, slot, s', NodeListReply(m.seqNumber, m.listType.value, s'.ring, v))
  {
    var s' := Revised(st.sessions[slot], 10, m);
    WeighedVote(st, slot, s', 10, m);
    var (st1, v) := Weighed(st, slot, s', 10, m);
    assert ConfigReceived(st, slot, m) == (st1, v);
    assert VoteFieldsOnly(st.sessions[slot], st1.sessions[slot]);
  }

  // ---------------------------------------------------------------- the outcome

  /** What is left of a report: it is stored, whole, and the sender differs in nothing else but its
      voting fields; nobody else does either. */
  ghost predicate Kept(a: State, b: State, slot: nat, s': Session) {
    && slot < |a.sessions| == |b.sessions|
    && VoteFieldsOnly(s', b.sessions[slot])
    && forall i :: 0 <= i < |a.sessions| && i != slot ==> VoteFieldsOnly(a.sessions[i], b.sessions[i])
  }

  /** Every report is stored. Without both lists, or as an initial configuration, it decides nothing.
      With them, but not stable, the cluster waits. Once stable, the best partition of what is known
      with the report becomes the quorate list, its members win and every other member loses. */
  ghost predicate Concluded(a: State, b: State, slot: nat, s': Session, decisive: bool)
    requires Offers(a, slot, s')
  {
    StableAsStored(a, slot, s');
    var c, tv := a.sessions[slot].cluster, View(slot, s');
    && Kept(a, b, slot, s')
    && if !decisive then NoVotes(a, b) && b.clusters == a.clusters
       else if !Stable(SetSession(a, slot, s'), tv) then
         NoVotes(a, b) && b.clusters == a.clusters[c := a.clusters[c].(state := WaitingForStable)]
       else
         && Told(a, b, c, ListOf(Winner(a, tv)))
         && (NoNewsToOthers(a, slot, s') ==> Told(a, b, c, ListOf(Winner(SetSession(a, slot, s'), tv))))
  }

  lemma StoredKeeps(st: State, slot: nat, s': Session, st1: State, frame: Reply)
    requires Offers(st, slot, s') && VoteStep(st, st1)
    ensures Kept(st, Stored(st1, slot, s', frame), slot, s')
  {
  }

  lemma ReportOutcome(st: State, slot: nat, t: u16, m: Decoded, frame: seq<byte>, now: nat, maxRx: u32)
    requires Open(st, slot) && Indexed(st) && st.sessions[slot].phase == Active && Reporting(st.sessions[slot], t, m)
    ensures var s' := Revised(st.sessions[slot], t, m);
            && Offers(st, slot, s')
            && Concluded(st, HandleMsg(st, slot, t, m, frame, now, maxRx), slot, s', Decisive(s', t, m))
  {
    ReportRuns(st, slot, t, m, frame, now, maxRx);
    var s' := Revised(st.sessions[slot], t, m);
    StoredConcludes(st, slot, s', t, m, ReportAnswer(st, slot, s', t, m));
  }

  lemma StoredConcludes(st: State, slot: nat, s': Session, t: u16, m: Decoded, frame: Reply)
    requires Offers(st, slot, s') && !frame.VoteInfo?
    ensures var st1 := Weighed(st, slot, s', t, m).0;
            && slot < |st1.sessions|
            && Concluded(st, Stored(st1, slot, s', frame), slot, s', Decisive(s', t, m))
  {
    StableAsStored(st, slot, s');
    WeighedVote(st, slot, s', t, m);
    var st1 := Weighed(st, slot, s', t, m).0;
    StoredKeeps(st, slot, s', st1, frame);
    if !Decisive(s', t, m) {
      UndecidedOutcome(st, slot, s', frame);
    } else if !Stable(st, View(slot, s')) {
      UnstableOutcome(st, slot, s', frame);
    } else {
      StableOutcome(st, slot, s', frame);
      if NoNewsToOthers(st, slot, s') {
        DecidedAsStored(st, slot, s');
      }
    }
  }

  lemma UndecidedOutcome(st: State, slot: nat, s': Session, frame: Reply)
    requires Offers(st, slot, s') && !frame.VoteInfo?
    ensures NoVotes(st, Stored(st, slot, s', frame))
  {
    var b := Stored(st, slot, s', frame);
    forall i | 0 <= i < |st.sessions|
      ensures st.out <= b.out && NewVotes(st, b, i) == []
    {
      NewVotesOf(st, st, [], i);
      AnswerVotes(st, st, b, Send(slot, frame), i);
    }
  }
}
