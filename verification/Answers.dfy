/** Frames that are not vote-infos, which steps send none, and which INITs are accepted. */
module Answers {
  import opened Wire
  import opened Msg
  import opened ServerState
  import opened Stability
  import opened Votes
  import opened Protocol

  // ---------------------------------------------------------------- frames other than vote-infos

  predicate IsAnswer(ev: Event) {
    ev.Send? && !ev.frame.VoteInfo?
  }

  /** The frames among `e` that are not vote-infos. */
  function AnswersIn(e: seq<Event>): (r: seq<Event>) {
    if e == [] then []
    else AnswersIn(e[..|e| - 1]) + (if IsAnswer(e[|e| - 1]) then [e[|e| - 1]] else [])
  }

  lemma AnswersPush(e: seq<Event>, ev: Event)
    ensures AnswersIn(e + [ev]) == AnswersIn(e) + (if IsAnswer(ev) then [ev] else [])
  {
    assert (e + [ev])[..|e|] == e;
  }

  lemma {:induction false} VotesAreNoAnswers(st: State, tv: Trigger, acks: bool, k: nat)
    requires ValidTrigger(st, tv) && k <= |st.sessions|
    ensures AnswersIn(VoteEvents(st, tv, acks, k)) == []
  {
    if k > 0 {
      VotesAreNoAnswers(st, tv, acks, k - 1);
      AnswersPush(VoteEvents(st, tv, acks, k - 1), Send(k - 1, VoteFrame(st, tv, acks, k - 1)));
    }
  }

  /** From `a` to `b` nothing but vote-infos was sent. */
  ghost predicate OnlyVotes(a: State, b: State) {
    a.out <= b.out && AnswersIn(b.out[|a.out|..]) == []
  }

  /** From `a` to `b` exactly one frame other than vote-infos was sent: `frame`, to `slot`. */
  ghost predicate OneAnswer(a: State, b: State, slot: nat, frame: Reply) {
    a.out <= b.out && AnswersIn(b.out[|a.out|..]) == [Send(slot, frame)]
  }

  lemma OnlyVotesOf(a: State, b: State, e: seq<Event>)
    requires b.out == a.out + e && AnswersIn(e) == []
    ensures OnlyVotes(a, b)
  {
    assert (a.out + e)[|a.out|..] == e;
  }

  lemma AnswerIsOne(a: State, b: State, slot: nat, s: Session, frame: Reply)
    requires OnlyVotes(a, b) && slot < |b.sessions| && !frame.VoteInfo?
    ensures OneAnswer(a, Answer(b, slot, s, frame), slot, frame)
  {
    var e := b.out[|a.out|..];
    AnswersPush(e, Send(slot, frame));
    assert Answer(b, slot, s, frame).out[|a.out|..] == e + [Send(slot, frame)];
  }

  lemma JustAnswer(a: State, b: State, slot: nat, frame: Reply)
    requires b.out == a.out + [Send(slot, frame)] && !frame.VoteInfo?
    ensures OneAnswer(a, b, slot, frame)
  {
    AnswersPush([], Send(slot, frame));
    assert b.out[|a.out|..] == [] + [Send(slot, frame)];
  }

  lemma ErrorIsOne(a: State, slot: nat, m: Decoded, code: ErrorCode)
    ensures OneAnswer(a, SendErr(a, slot, m, code), slot, ServerErrorReply(m.seqNumberSet, m.seqNumber, code))
  {
    JustAnswer(a, SendErr(a, slot, m, code), slot, ServerErrorReply(m.seqNumberSet, m.seqNumber, code));
  }

  lemma FfsplitOnlyVotes(st: State, tv: Trigger)
    requires ValidTrigger(st, tv)
    ensures OnlyVotes(st, FfsplitDo(st, tv).0)
  {
    if Stable(st, tv) {
      var w := Selection.Winner(st, tv);
      var m, acks := Mark(st, tv, w), !AnyLoser(st, tv, w);
      DecisionEffect(st, tv, w);
      VotesAreNoAnswers(m, tv, acks, |st.sessions|);
      OnlyVotesOf(st, FfsplitDo(st, tv).0, VoteEvents(m, tv, acks, |st.sessions|));
    } else {
      OnlyVotesOf(st, FfsplitDo(st, tv).0, []);
    }
  }

  lemma AcknowledgeOnlyVotes(st: State, slot: nat)
    requires slot < |st.sessions| && ValidTrigger(st, StoredTrigger(st, slot, false))
    ensures OnlyVotes(st, Acknowledge(st, slot))
  {
    var s1 := SetSession(st, slot, st.sessions[slot].(poll := st.sessions[slot].poll.(ff := Waiting)));
    var tv := StoredTrigger(s1, slot, false);
    var s2 := WithState(s1, st.sessions[slot].cluster, SendingAcks);
    VotesAreNoAnswers(s2, tv, true, |st.sessions|);
    var b := Acknowledge(st, slot);
    if b.out == st.out {
      OnlyVotesOf(st, b, []);
    } else {
      OnlyVotesOf(st, b, VoteEvents(s2, tv, true, |st.sessions|));
    }
  }

  // ---------------------------------------------------------------- sequence numbers

  /** The answer repeats the sequence number of the message, if it has one. An echo repeats
      everything. */
  predicate Repeats(r: Reply, m: Decoded, frame: seq<byte>) {
    match r
    case EchoReply(request) => request == frame
    case NodeListReply(n, _, _, _) => m.seqNumberSet && n == m.seqNumber
    case VoteInfo(_, _, _) => false
    case _ => r.seqSet == m.seqNumberSet && (r.seqSet ==> r.seqNo == m.seqNumber)
  }

  // ---------------------------------------------------------------- which INITs are accepted

  /** The options of an INIT are complete and in range. */
  predicate WellFormed(m: Decoded) {
    && m.nodeIdSet && m.ringSet && m.heartbeatSet && HEARTBEAT_MIN_MS <= m.heartbeat <= HEARTBEAT_MAX_MS
    && m.tieBreakerSet && m.algorithmSet && m.algorithm == FFSPLIT
  }

  /** If slot `i` is an active member of the named cluster, it has the same tie-breaker and another
      node id. */
  predicate FitsAt(st: State, slot: nat, m: Decoded, i: nat)
    requires slot < |st.sessions| && i < |st.sessions|
  {
    var o := st.sessions[i];
    i != slot && o.phase == Active && o.clusterName == st.sessions[slot].clusterName ==>
      SameTieBreaker(m.tieBreaker, o.tieBreaker) && o.algorithm == FFSPLIT && o.nodeId != m.nodeId
  }

  ghost predicate Fits(st: State, slot: nat, m: Decoded)
    requires slot < |st.sessions|
  {
    forall i :: 0 <= i < |st.sessions| ==> FitsAt(st, slot, m, i)
  }

  /** There is a record of that name, or a free one. */
  ghost predicate HasRoom(cs: seq<Cluster>, name: seq<byte>) {
    exists c :: 0 <= c < |cs| && (!cs[c].used || cs[c].name == name)
  }

  lemma RoomIff(cs: seq<Cluster>, name: seq<byte>)
    ensures FindOrCreate(cs, name).0.Some? <==> HasRoom(cs, name)
  {
  }

  /** An INIT is accepted if and only if the session is not active yet, its options are complete and
      in range, it fits the active members of its cluster, and there is room for the cluster. */
  lemma AcceptedIff(st: State, slot: nat, m: Decoded, now: nat)
    requires Open(st, slot)
    ensures InitOutcome(st, slot, m, now).2 == NoError <==>
            && st.sessions[slot].phase != Active && WellFormed(m) && Fits(st, slot, m)
            && HasRoom(st.clusters, st.sessions[slot].clusterName)
  {
    var (s, code) := InitFields(st.sessions[slot], m);
    NoConflict(st, slot, s, 0);
    RoomIff(st.clusters, s.clusterName);
    if code == NoError {
      forall i | 0 <= i < |st.sessions|
        ensures Conflict(st, slot, s, i) == NoError <==> FitsAt(st, slot, m, i)
      {
      }
    }
  }
}
