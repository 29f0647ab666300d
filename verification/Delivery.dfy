/** When a deferred winner is sure of its ACK: exactly when it owes no reply. */
module Delivery {
  import opened Wire
  import opened ServerState
  import opened Votes
  import opened Effects
  import opened Network
  import opened NetworkSteps
  import opened NetworkRuns
  import opened VoteRound

  // ---------------------------------------------------------------- room for sequence numbers

  /** Session `i` is to be sent its ACK once the NACKs are acknowledged. */
  predicate Deferred(st: State, i: nat)
    requires i < |st.sessions|
  {
    var s := st.sessions[i];
    && s.phase == Active && 0 <= s.cluster < |st.clusters|
    && st.clusters[s.cluster].state == SendingNacks && s.poll.ff == SendingAck
  }

  /** The vote-infos in flight on a link, counting the deferred one, are not more than there are
      sequence numbers. */
  predicate RoomAt(n: Net, i: nat)
    requires i < |n.links| && i < |n.srv.sessions|
  {
    InFlight(n.links[i]) + (if Deferred(n.srv, i) then 1 else 0) <= WORD
  }

  ghost predicate Room(n: Net)
    requires |n.links| == |n.srv.sessions|
  {
    forall i :: 0 <= i < |n.links| ==> RoomAt(n, i)
  }

  lemma SettledRoom(n: Net, b: State, slot: nat, i: nat)
    requires Settles(n, b, slot) && i < |n.links| && RoomAt(n, i)
    ensures var r := SettledNet(n, b, slot); i < |r.links| && RoomAt(r, i)
  {
    SettledIsSettledBy(n, b, slot);
    SettledLinks(n, b, slot, SettledNet(n, b, slot), i);
    assert AckAt(n.srv, b, slot, i);
  }

  lemma QuietRoom(n: Net, mv: Move, maxRx: u32)
    requires NetInv(n) && Shaped(n) && Enabled(n, mv) && Quiet(mv) && Room(n)
    ensures Room(Make(n, mv, maxRx))
  {
    if mv.Reply? && InFlight(n.links[mv.slot]) == 1 {
      SettlingMove(n, mv.slot, mv.msg, mv.frame, mv.now, maxRx);
      AllSettledRoom(n, Acknowledge(n.srv, mv.slot), mv.slot);
    } else if mv.Reply? {
      StaleMove(n, mv.slot, mv.msg, mv.frame, mv.now, maxRx);
      LessRoom(n, TakeReply(n, mv.slot));
    } else {
      LessRoom(n, ClientApplies(n, mv.slot));
    }
  }

  lemma AllSettledRoom(n: Net, b: State, slot: nat)
    requires Settles(n, b, slot) && |n.links| == |n.srv.sessions| && Room(n)
    ensures var r := SettledNet(n, b, slot); |r.links| == |r.srv.sessions| && Room(r)
  {
    var r := SettledNet(n, b, slot);
    forall i | 0 <= i < |r.links|
      ensures RoomAt(r, i)
    {
      assert RoomAt(n, i);
      SettledRoom(n, b, slot, i);
    }
  }

  lemma LessRoom(n: Net, r: Net)
    requires |n.links| == |n.srv.sessions| == |r.links| && r.srv == n.srv && Room(n)
    requires forall i :: 0 <= i < |n.links| ==> InFlight(r.links[i]) <= InFlight(n.links[i])
    ensures Room(r)
  {
    forall i | 0 <= i < |r.links|
      ensures RoomAt(r, i)
    {
      assert RoomAt(n, i);
    }
  }

  // ---------------------------------------------------------------- the end of a round

  /** One quiet move leads from `n` to `r`. */
  ghost predicate QuietStep(n: Net, mv: Move, r: Net, maxRx: u32) {
    Shaped(n) && Quiet(mv) && Enabled(n, mv) && r == Make(n, mv, maxRx)
  }

  lemma QuietCons(n: Net, mv: Move, n1: Net, rest: seq<Move>, r: Net, maxRx: u32)
    requires QuietStep(n, mv, n1, maxRx) && QuietRun(n1, rest, r, maxRx)
    ensures QuietRun(n, [mv] + rest, r, maxRx)
  {
    assert ([mv] + rest)[1..] == rest;
  }

  predicate Over(st: State, c: nat)
    requires c < |st.clusters|
  {
    st.clusters[c].state != SendingNacks && st.clusters[c].state != SendingAcks
  }

  lemma RoundStep(n: Net, c: nat, maxRx: u32) returns (mv: Move, r: Net)
    requires NetInv(n) && Shaped(n) && Room(n) && c < |n.srv.clusters| && !Over(n.srv, c)
    ensures QuietStep(n, mv, r, maxRx)
    ensures NetInv(r) && Shaped(r) && Room(r) && Less(n, r)
  {
    forall i | 0 <= i < |n.links|
      ensures InFlight(n.links[i]) <= WORD
    {
      assert RoomAt(n, i);
    }
    mv := NotStuck(n, c);
    r := Make(n, mv, maxRx);
    QuietIsLess(n, mv, maxRx);
    MakeInv(n, mv, maxRx);
    QuietRoom(n, mv, maxRx);
  }

  /** From every state with room for the numbers in flight the clients alone can bring a round to its
      end. */
  lemma {:induction false} RoundEnds(n: Net, c: nat, maxRx: u32) returns (ms: seq<Move>, r: Net)
    requires NetInv(n) && Shaped(n) && Room(n) && c < |n.srv.clusters|
    ensures QuietRun(n, ms, r, maxRx) && NetInv(r) && c < |r.srv.clusters| && Over(r.srv, c)
    decreases |Pending(n.srv)|, Load(n.links)
  {
    if Over(n.srv, c) {
      ms, r := [], n;
    } else {
      var mv, n1 := RoundStep(n, c, maxRx);
      var rest;
      rest, r := RoundEnds(n1, c, maxRx);
      ms := [mv] + rest;
      QuietCons(n, mv, n1, rest, r, maxRx);
    }
  }

  // ---------------------------------------------------------------- delivery

  /** Session `i` awaits its ACK of decision `d`, which is the latest of its cluster and still has
      NACKs outstanding. */
  ghost predicate Awaiting(n: Net, c: nat, d: nat, i: nat) {
    && i < |n.links| == |n.srv.sessions| && c < |n.latest| == |n.srv.clusters|
    && InCluster(n.srv, c, i) && n.latest[c] == Some(d) && n.srv.clusters[c].state == SendingNacks
    && n.srv.sessions[i].poll.ff == SendingAck && !AckSent(n, n.links[i].id, d)
  }

  /** Session `i` has been sent its ACK of decision `d`, or NACKs are still outstanding. */
  ghost predicate Delivered(r: Net, c: nat, d: nat, i: nat) {
    i < |r.links| && c < |r.srv.clusters| && (r.srv.clusters[c].state != SendingNacks ==> AckSent(r, r.links[i].id, d))
  }

  lemma ExposedStep(n: Net, c: nat, d: nat, i: nat, maxRx: u32) returns (mv: Move, r: Net)
    requires NetInv(n) && Shaped(n) && Room(n) && Exposed(n, c, d, i)
    ensures QuietStep(n, mv, r, maxRx) && NetInv(r) && Shaped(r) && Room(r)
    ensures Forfeited(r, c, d, i) || (Exposed(r, c, d, i) && Weight(r.links[i]) < Weight(n.links[i]))
  {
    mv := NextMove(n.links[i], i);
    ExposedMove(n, maxRx, c, d, i);
    MakeInv(n, mv, maxRx);
    QuietRoom(n, mv, maxRx);
    r := Make(n, mv, maxRx);
  }

  /** The late reply can come first: a winner that owes one has a continuation in which the round
      ends without its ACK. */
  lemma {:induction false} LateReplyForfeits(n: Net, c: nat, d: nat, i: nat, maxRx: u32)
    returns (ms: seq<Move>, s: Net)
    requires NetInv(n) && Shaped(n) && Room(n) && Exposed(n, c, d, i)
    ensures QuietRun(n, ms, s, maxRx) && Forfeited(s, c, d, i) && Over(s.srv, c)
    decreases Weight(n.links[i])
  {
    var mv, n1 := ExposedStep(n, c, d, i, maxRx);
    var rest;
    if Forfeited(n1, c, d, i) {
      rest, s := RoundEnds(n1, c, maxRx);
      ForfeitStays(n1, rest, s, maxRx, c, d, i);
    } else {
      rest, s := LateReplyForfeits(n1, c, d, i, maxRx);
    }
    ms := [mv] + rest;
    QuietCons(n, mv, n1, rest, s, maxRx);
  }

  /** `r` continues `n` without new triggers. */
  ghost predicate Continues(n: Net, ms: seq<Move>, r: Net, maxRx: u32) {
    QuietRun(n, ms, r, maxRx)
  }

  /** A deferred winner is sent its ACK in every continuation without new triggers, if and only if
      it owes no reply to an earlier vote-info. */
  lemma DeliveredIff(n: Net, c: nat, d: nat, i: nat, maxRx: u32)
    requires NetInv(n) && Shaped(n) && Room(n) && Awaiting(n, c, d, i)
    ensures InFlight(n.links[i]) == 0 <==> forall ms, r :: Continues(n, ms, r, maxRx) ==> Delivered(r, c, d, i)
  {
    if InFlight(n.links[i]) == 0 {
      forall ms, r | Continues(n, ms, r, maxRx)
        ensures Delivered(r, c, d, i)
      {
        WinnersGetAcks(n, ms, r, maxRx, c, d, i);
      }
    } else {
      assert RoomAt(n, i);
      var ms, r := LateReplyForfeits(n, c, d, i, maxRx);
      assert Continues(n, ms, r, maxRx) && !Delivered(r, c, d, i);
    }
  }
}
