/** One ffsplit decision: marking every member of the cluster, sending the NACKs first and the
    ACKs only when no NACK is outstanding, and the handling of vote-info replies. */
module Votes {
  import opened Wire
  import opened Msg
  import opened ServerState
  import opened Stability
  import opened Selection

  predicate Wins(w: Option<NodeList>, id: u32) {
    w.Some? && Has(w.value, id)
  }

  // ---------------------------------------------------------------- the steps of the algorithm

  /** Session `i` after marking: winners are to be ACKed, losers NACKed, a leaving client is
      forgotten. */
  function Marked(st: State, tv: Trigger, w: Option<NodeList>, i: nat): (s: Session)
    requires ValidTrigger(st, tv) && i < |st.sessions|
  {
    if !InCluster(st, TriggerCluster(st, tv), i) then st.sessions[i]
    else if Skipped(st, tv, i) then st.sessions[i].(poll := st.sessions[i].poll.(ff := Waiting))
    else if Wins(w, st.sessions[i].nodeId) then st.sessions[i].(poll := st.sessions[i].poll.(ff := SendingAck))
    else st.sessions[i].(poll := st.sessions[i].poll.(ff := SendingNack))
  }

  function UpdateStates(st: State, tv: Trigger, w: Option<NodeList>): (r: State)
    requires ValidTrigger(st, tv)
  {
    st.(sessions := seq(|st.sessions|, i requires 0 <= i < |st.sessions| => Marked(st, tv, w, i)))
  }

  function Ballot(acks: bool): (v: Vote) {
    if acks then Ack else Nack
  }

  /** Slot `i` is due a vote-info of the given kind. */
  predicate Due(st: State, tv: Trigger, acks: bool, i: int)
    requires ValidTrigger(st, tv)
  {
    Takes(st, tv, i) && st.sessions[i].poll.ff == (if acks then SendingAck else SendingNack)
  }

  function Voted(s: Session, v: Vote): (r: Session) {
    s.(poll := Poll(s.poll.ff, Succ32(s.poll.voteSeq), v))
  }

  /** The vote-info sent to a slot that is due one: the next sequence number and the ring the
      decision saw. */
  function VoteFrame(st: State, tv: Trigger, acks: bool, i: nat): (r: Reply)
    requires i < |st.sessions|
  {
    VoteInfo(Succ32(st.sessions[i].poll.voteSeq), EffRing(st, tv, i), Ballot(acks))
  }

  /** The vote-infos sent to the first `k` slots, in slot order. */
  function VoteEvents(st: State, tv: Trigger, acks: bool, k: nat): (e: seq<Event>)
    requires ValidTrigger(st, tv) && k <= |st.sessions|
  {
    if k == 0 then []
    else if Due(st, tv, acks, k - 1) then
      VoteEvents(st, tv, acks, k - 1)
      + [Send(k - 1, VoteFrame(st, tv, acks, k - 1))]
    else VoteEvents(st, tv, acks, k - 1)
  }

  function SendVotes(st: State, tv: Trigger, acks: bool): (r: State)
    requires ValidTrigger(st, tv)
  {
    st.(sessions := seq(|st.sessions|, i requires 0 <= i < |st.sessions| =>
                          if Due(st, tv, acks, i) then Voted(st.sessions[i], Ballot(acks)) else st.sessions[i]),
        out := st.out + VoteEvents(st, tv, acks, |st.sessions|))
  }

  ghost predicate AnyDue(st: State, tv: Trigger, acks: bool)
    requires ValidTrigger(st, tv)
  {
    exists i :: Due(st, tv, acks, i)
  }

  function WithState(st: State, c: nat, f: FfCluster): (r: State)
    requires c < |st.clusters|
  {
    SetCluster(st, c, st.clusters[c].(state := f))
  }

  /** Release the ACKs; with none to send the round is over. */
  ghost function ReleaseAcks(st: State, tv: Trigger): (r: State)
    requires ValidTrigger(st, tv)
  {
    var c := TriggerCluster(st, tv);
    var s1 := SendVotes(WithState(st, c, SendingAcks), tv, true);
    if AnyDue(st, tv, true) then s1 else WithState(s1, c, WaitingForChange)
  }

  /** Record the decision for winner `w` and mark every member of the cluster. */
  function Mark(st: State, tv: Trigger, w: Option<NodeList>): (r: State)
    requires ValidTrigger(st, tv)
  {
    var c := TriggerCluster(st, tv);
    var s1 := UpdateStates(st.(decisions := Succ32(st.decisions)), tv, w);
    SetCluster(s1, c, s1.clusters[c].(quorate := if w.Some? then w.value else [], state := SendingNacks))
  }

  /** Send the NACKs, and the ACKs at once when there was no NACK. */
  ghost function CastVotes(st: State, tv: Trigger): (r: State)
    requires ValidTrigger(st, tv)
  {
    var s1 := SendVotes(st, tv, false);
    if AnyDue(st, tv, false) then s1 else ReleaseAcks(s1, tv)
  }

  /** `ffsplit_do`: no decision while the membership is unstable; otherwise select, mark, send
      NACKs, and release the ACKs at once when there was no NACK. */
  ghost function FfsplitDo(st: State, tv: Trigger): (r: (State, Vote))
    requires ValidTrigger(st, tv)
  {
    var c := TriggerCluster(st, tv);
    if !Stable(st, tv) then (WithState(st, c, WaitingForStable), WaitForReply)
    else (CastVotes(Mark(st, tv, Winner(st, tv)), tv), NoChange)
  }

  ghost predicate AnySending(st: State, c: int, f: FfClient) {
    exists i :: InCluster(st, c, i) && st.sessions[i].poll.ff == f
  }

  /** The trigger view of a client speaking for itself with its stored state. */
  function StoredTrigger(st: State, slot: nat, leaving: bool): (tv: Trigger)
    requires slot < |st.sessions|
  {
    var s := st.sessions[slot];
    Trigger(slot, leaving, s.ring, s.config, s.membership, s.heuristics)
  }

  /** A vote-info reply with the latest sequence number: the last NACK reply of a round releases
      the ACKs, the last ACK reply ends the round. */
  ghost function Acknowledge(st: State, slot: nat): (r: State)
    requires slot < |st.sessions| && st.sessions[slot].phase == Active
    requires 0 <= st.sessions[slot].cluster < |st.clusters|
  {
    var c := st.sessions[slot].cluster;
    var s1 := SetSession(st, slot, st.sessions[slot].(poll := st.sessions[slot].poll.(ff := Waiting)));
    match st.clusters[c].state
    case SendingNacks =>
      if AnySending(s1, c, SendingNack) then s1
      else ReleaseAcks(s1, StoredTrigger(s1, slot, false))
    case SendingAcks =>
      if AnySending(s1, c, SendingAck) then s1 else WithState(s1, c, WaitingForChange)
    case _ => s1
  }

  // ---------------------------------------------------------------- what a decision amounts to

  ghost predicate AnyLoser(st: State, tv: Trigger, w: Option<NodeList>)
    requires ValidTrigger(st, tv)
  {
    exists i :: Takes(st, tv, i) && !Wins(w, st.sessions[i].nodeId)
  }

  ghost predicate AnyWinner(st: State, tv: Trigger, w: Option<NodeList>)
    requires ValidTrigger(st, tv)
  {
    exists i :: Takes(st, tv, i) && Wins(w, st.sessions[i].nodeId)
  }

  /** Session `i` after the whole decision: losers have been sent their NACK; winners have been
      sent their ACK exactly when there is no loser. */
  ghost function Decided(st: State, tv: Trigger, w: Option<NodeList>, i: nat): (s: Session)
    requires ValidTrigger(st, tv) && i < |st.sessions|
  {
    var m := Marked(st, tv, w, i);
    if !Takes(st, tv, i) then m
    else if !Wins(w, st.sessions[i].nodeId) then Voted(m, Nack)
    else if AnyLoser(st, tv, w) then m
    else Voted(m, Ack)
  }

  ghost function DecidedState(st: State, tv: Trigger, w: Option<NodeList>): (f: FfCluster)
    requires ValidTrigger(st, tv)
  {
    if AnyLoser(st, tv, w) then SendingNacks
    else if AnyWinner(st, tv, w) then SendingAcks
    else WaitingForChange
  }

  /** Marking followed by the two send passes, in closed form. */
  ghost predicate DecisionShape(st: State, tv: Trigger, w: Option<NodeList>, st': State)
    requires ValidTrigger(st, tv)
  {
    var c := TriggerCluster(st, tv);
    && |st'.sessions| == |st.sessions|
    && (forall i :: 0 <= i < |st.sessions| ==> st'.sessions[i] == Decided(st, tv, w, i))
    && st'.clusters == st.clusters[c := st.clusters[c].(quorate := if w.Some? then w.value else [],
                                                        state := DecidedState(st, tv, w))]
    && st'.decisions == Succ32(st.decisions)
    && st'.out == st.out + VoteEvents(Mark(st, tv, w), tv, !AnyLoser(st, tv, w), |st.sessions|)
  }

  lemma DecisionEffect(st: State, tv: Trigger, w: Option<NodeList>)
    requires ValidTrigger(st, tv)
    ensures DecisionShape(st, tv, w, CastVotes(Mark(st, tv, w), tv))
  {
    var m := Mark(st, tv, w);
    MarkedIsDue(st, tv, w, m);
    if AnyLoser(st, tv, w) {
      var i :| Takes(st, tv, i) && !Wins(w, st.sessions[i].nodeId);
      assert Due(m, tv, false, i);
      WithLosers(st, tv, w);
    } else {
      assert !AnyDue(m, tv, false);
      EmptyPass(m, tv, false);
      WithoutLosers(st, tv, w);
    }
  }

  /** With nobody due, a send pass does nothing. */
  lemma EmptyPass(st: State, tv: Trigger, acks: bool)
    requires ValidTrigger(st, tv) && !AnyDue(st, tv, acks)
    ensures SendVotes(st, tv, acks) == st
  {
    NoVoteEvents(st, tv, acks, |st.sessions|);
    assert SendVotes(st, tv, acks).sessions == st.sessions;
  }

  lemma WithLosers(st: State, tv: Trigger, w: Option<NodeList>)
    requires ValidTrigger(st, tv) && AnyLoser(st, tv, w)
    ensures DecisionShape(st, tv, w, SendVotes(Mark(st, tv, w), tv, false))
  {
    var m := Mark(st, tv, w);
    MarkedIsDue(st, tv, w, m);
    var st' := SendVotes(m, tv, false);
    forall i | 0 <= i < |st.sessions|
      ensures st'.sessions[i] == Decided(st, tv, w, i)
    {
      assert m.sessions[i] == Marked(st, tv, w, i);
    }
  }

  lemma WithoutLosers(st: State, tv: Trigger, w: Option<NodeList>)
    requires ValidTrigger(st, tv) && !AnyLoser(st, tv, w)
    ensures DecisionShape(st, tv, w, ReleaseAcks(Mark(st, tv, w), tv))
  {
    var m := Mark(st, tv, w);
    MarkedIsDue(st, tv, w, m);
    PassEffect(m, tv);
    assert AnyDue(m, tv, true) <==> AnyWinner(st, tv, w) by {
      if AnyWinner(st, tv, w) {
        var i :| Takes(st, tv, i) && Wins(w, st.sessions[i].nodeId);
        assert Due(m, tv, true, i);
      }
    }
    DecidedAreReleased(st, tv, w);
  }

  lemma DecidedAreReleased(st: State, tv: Trigger, w: Option<NodeList>)
    requires ValidTrigger(st, tv) && !AnyLoser(st, tv, w)
    ensures var m := Mark(st, tv, w);
            forall i :: 0 <= i < |st.sessions| ==>
              Decided(st, tv, w, i) == if Due(m, tv, true, i) then Voted(m.sessions[i], Ack) else m.sessions[i]
  {
    var m := Mark(st, tv, w);
    MarkedIsDue(st, tv, w, m);
    forall i | 0 <= i < |st.sessions|
      ensures Decided(st, tv, w, i) == if Due(m, tv, true, i) then Voted(m.sessions[i], Ack) else m.sessions[i]
    {
      assert m.sessions[i] == Marked(st, tv, w, i);
    }
  }

  /** Releasing the ACKs, in closed form. */
  lemma PassEffect(st: State, tv: Trigger)
    requires ValidTrigger(st, tv)
    ensures var c := TriggerCluster(st, tv);
            var st' := ReleaseAcks(st, tv);
            && |st'.sessions| == |st.sessions|
            && (forall i :: 0 <= i < |st.sessions| ==>
                  st'.sessions[i] == if Due(st, tv, true, i) then Voted(st.sessions[i], Ack) else st.sessions[i])
            && st'.clusters == st.clusters[c := st.clusters[c].(state :=
                                 if AnyDue(st, tv, true) then SendingAcks else WaitingForChange)]
            && st'.decisions == st.decisions
            && st'.out == st.out + VoteEvents(st, tv, true, |st.sessions|)
  {
    var s0 := WithState(st, TriggerCluster(st, tv), SendingAcks);
    VoteEventsSameSessions(st, s0, tv, true, |st.sessions|);
    assert forall i :: Due(s0, tv, true, i) <==> Due(st, tv, true, i);
  }

  /** Marking makes exactly the losers due a NACK and the winners due an ACK. */
  lemma MarkedIsDue(st: State, tv: Trigger, w: Option<NodeList>, m: State)
    requires ValidTrigger(st, tv)
    requires m.sessions == UpdateStates(st, tv, w).sessions && |m.clusters| == |st.clusters|
    ensures ValidTrigger(m, tv) && TriggerCluster(m, tv) == TriggerCluster(st, tv)
    ensures forall i :: Takes(m, tv, i) <==> Takes(st, tv, i)
    ensures forall i :: Due(m, tv, true, i) <==> Takes(st, tv, i) && Wins(w, st.sessions[i].nodeId)
    ensures forall i :: Due(m, tv, false, i) <==> Takes(st, tv, i) && !Wins(w, st.sessions[i].nodeId)
  {
    forall i | 0 <= i < |st.sessions|
      ensures m.sessions[i] == Marked(st, tv, w, i)
    {
    }
  }

  lemma {:induction false} VoteEventsSameSessions(a: State, b: State, tv: Trigger, acks: bool, k: nat)
    requires ValidTrigger(a, tv) && ValidTrigger(b, tv) && a.sessions == b.sessions && k <= |a.sessions|
    ensures VoteEvents(a, tv, acks, k) == VoteEvents(b, tv, acks, k)
  {
    if k > 0 {
      VoteEventsSameSessions(a, b, tv, acks, k - 1);
      assert Due(a, tv, acks, k - 1) <==> Due(b, tv, acks, k - 1);
    }
  }

  /** A send pass closes nothing. */
  lemma {:induction false} VoteEventsCloseNothing(out: seq<Event>, st: State, tv: Trigger, acks: bool, k: nat)
    requires ValidTrigger(st, tv) && k <= |st.sessions|
    ensures Closes(out + VoteEvents(st, tv, acks, k)) == Closes(out)
  {
    if k == 0 {
      assert out + [] == out;
    } else {
      VoteEventsCloseNothing(out, st, tv, acks, k - 1);
      if Due(st, tv, acks, k - 1) {
        var e := out + VoteEvents(st, tv, acks, k);
        assert e[..|e| - 1] == out + VoteEvents(st, tv, acks, k - 1);
      }
    }
  }

  lemma {:induction false} NoVoteEvents(st: State, tv: Trigger, acks: bool, k: nat)
    requires ValidTrigger(st, tv) && k <= |st.sessions| && !AnyDue(st, tv, acks)
    ensures VoteEvents(st, tv, acks, k) == []
  {
    if k > 0 {
      NoVoteEvents(st, tv, acks, k - 1);
      assert !Due(st, tv, acks, k - 1);
    }
  }

  /** A client speaking with its stored state releases an ACK to every session of its cluster
      that is still marked for one. */
  lemma DueIsSending(st: State, slot: nat, i: int)
    requires slot < |st.sessions| && ValidTrigger(st, StoredTrigger(st, slot, false))
    ensures var tv := StoredTrigger(st, slot, false);
            Due(st, tv, true, i) <==> InCluster(st, TriggerCluster(st, tv), i) && st.sessions[i].poll.ff == SendingAck
  {
  }

  // ---------------------------------------------------------------- who receives what

  /** The vote-infos among `e` addressed to `slot`, in order. */
  function VotesTo(e: seq<Event>, slot: nat): (r: seq<Reply>) {
    if e == [] then []
    else
      var last := e[|e| - 1];
      VotesTo(e[..|e| - 1], slot)
      + (if last.Send? && last.slot == slot && last.frame.VoteInfo? then [last.frame] else [])
  }

  lemma {:induction false} VotesToAreVotes(e: seq<Event>, slot: nat)
    ensures forall k :: 0 <= k < |VotesTo(e, slot)| ==> VotesTo(e, slot)[k].VoteInfo?
  {
    if e != [] {
      VotesToAreVotes(e[..|e| - 1], slot);
    }
  }

  /** The vote-infos to `slot` once `to` may have been sent one more. */
  lemma VotesToPush(e: seq<Event>, e': seq<Event>, due: bool, to: nat, frame: Reply, slot: nat)
    requires frame.VoteInfo? && e' == if due then e + [Send(to, frame)] else e
    ensures to != slot || !due ==> VotesTo(e', slot) == VotesTo(e, slot)
    ensures to == slot && due ==> VotesTo(e', slot) == VotesTo(e, slot) + [frame]
  {
    if due {
      assert e'[..|e'| - 1] == e;
    }
  }

  /** A send pass delivers exactly one vote-info to each slot due one and nothing to anyone else. */
  lemma {:induction false} VotesToOfPass(st: State, tv: Trigger, acks: bool, k: nat, slot: nat)
    requires ValidTrigger(st, tv) && k <= |st.sessions| && slot < |st.sessions|
    ensures VotesTo(VoteEvents(st, tv, acks, k), slot)
            == if slot < k && Due(st, tv, acks, slot) then [VoteFrame(st, tv, acks, slot)] else []
  {
    if k > 0 {
      VotesToOfPass(st, tv, acks, k - 1, slot);
      VotesToPush(VoteEvents(st, tv, acks, k - 1), VoteEvents(st, tv, acks, k), Due(st, tv, acks, k - 1),
                  k - 1, VoteFrame(st, tv, acks, k - 1), slot);
    }
  }
}
