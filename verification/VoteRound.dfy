/** A vote round left to itself: clients apply and reply, nobody triggers anything new. It ends, it
    never gets stuck before its end, and every winner whose earlier vote-infos were all answered
    when the decision was taken has been sent its ACK once the NACKs are acknowledged. */
module VoteRound {
  import opened Wire
  import opened Msg
  import opened ServerState
  import opened Votes
  import opened Invariants
  import opened Effects
  import opened Network
  import opened NetworkSteps
  import opened NetworkRuns

  predicate Quiet(mv: Move) {
    mv.Apply? || mv.Reply?
  }

  /** The sessions that still owe a reply of their round. */
  function Pending(st: State): (r: set<int>) {
    set i | 0 <= i < |st.sessions| && st.sessions[i].phase == Active && st.sessions[i].poll.ff != Waiting
  }

  function Weight(l: Link): (w: nat) {
    2 * |l.down| + |l.up|
  }

  /** Messages in flight; one not yet applied weighs two. */
  function Load(ls: seq<Link>): (w: nat) {
    if ls == [] then 0 else Weight(ls[0]) + Load(ls[1..])
  }

  lemma {:induction false} LoadUpdate(ls: seq<Link>, i: nat, l: Link)
    requires i < |ls|
    ensures Load(ls[i := l]) == Load(ls) - Weight(ls[i]) + Weight(l)
  {
    if i == 0 {
      assert ls[i := l][1..] == ls[1..];
    } else {
      assert ls[i := l][1..] == ls[1..][i - 1 := l];
      LoadUpdate(ls[1..], i - 1, l);
    }
  }

  /** Lexicographic progress: fewer sessions owe a reply, or as many with less in flight. */
  predicate Less(n: Net, r: Net) {
    |Pending(r.srv)| < |Pending(n.srv)| || (Pending(r.srv) == Pending(n.srv) && Load(r.links) < Load(n.links))
  }

  /** A reply that releases the ACKs comes from a session being NACKed. */
  lemma ReleaserWasNacked(st: State, slot: nat)
    requires slot < |st.sessions| && Releases(st, slot) && WorkOk(st, st.sessions[slot].cluster)
    ensures st.sessions[slot].poll.ff == SendingNack
  {
    var i :| InCluster(st, st.sessions[slot].cluster, i) && st.sessions[i].poll.ff == SendingNack;
  }

  lemma SettlingIsLess(n: Net, b: State, slot: nat)
    requires NetInv(n) && Settles(n, b, slot)
    ensures Less(n, SettledNet(n, b, slot))
  {
    var r := SettledNet(n, b, slot);
    var s := n.srv.sessions[slot];
    forall i | 0 <= i < |n.srv.sessions|
      ensures i in Pending(b) <==> i in Pending(n.srv) && i != slot
    {
      assert AckAt(n.srv, b, slot, i);
    }
    assert Pending(b) == Pending(n.srv) - {slot};
    if s.poll.ff == Waiting {
      assert WorkOk(n.srv, s.cluster);
      if Releases(n.srv, slot) {
        ReleaserWasNacked(n.srv, slot);
      } else {
        SettlingQuietly(n, b, slot);
        LoadUpdate(n.links, slot, Taken(n.links[slot]));
      }
    } else {
      assert slot in Pending(n.srv);
    }
  }

  /** Without a release the only effect on the channels is the reply taken. */
  lemma SettlingQuietly(n: Net, b: State, slot: nat)
    requires Settles(n, b, slot) && !Releases(n.srv, slot)
    ensures SettledNet(n, b, slot).links == TakeReply(n, slot).links && SettledNet(n, b, slot).log == n.log
  {
    var n1 := TakeReply(n, slot);
    forall i | 0 <= i < |n1.links|
      ensures NewVotes(n1.srv, b, i) == []
    {
      assert AckAt(n.srv, b, slot, i);
    }
    QuietAdvance(n1, b, n.srv.sessions[slot].cluster);
  }

  /** Every quiet move makes progress, so every quiet run ends. */
  lemma QuietIsLess(n: Net, mv: Move, maxRx: u32)
    requires NetInv(n) && Shaped(n) && Enabled(n, mv) && Quiet(mv)
    ensures Less(n, Make(n, mv, maxRx))
  {
    if mv.Apply? {
      LoadUpdate(n.links, mv.slot, Applied(n.links[mv.slot]));
    } else if InFlight(n.links[mv.slot]) == 1 {
      SettlingMove(n, mv.slot, mv.msg, mv.frame, mv.now, maxRx);
      SettlingIsLess(n, Acknowledge(n.srv, mv.slot), mv.slot);
    } else {
      StaleMove(n, mv.slot, mv.msg, mv.frame, mv.now, maxRx);
      LoadUpdate(n.links, mv.slot, Taken(n.links[mv.slot]));
    }
  }

  function ReplyMsg(seqNo: u32): (m: Decoded) {
    Msg.Blank().(seqNumberSet := true, seqNumber := seqNo)
  }

  /** A round that is not over can go on: somebody has a vote-info to apply or a reply under way. */
  lemma NotStuck(n: Net, c: nat) returns (mv: Move)
    requires NetInv(n) && Shaped(n) && c < |n.srv.clusters|
    requires n.srv.clusters[c].state == SendingNacks || n.srv.clusters[c].state == SendingAcks
    requires forall i :: 0 <= i < |n.links| ==> InFlight(n.links[i]) <= WORD
    ensures Quiet(mv) && Enabled(n, mv)
  {
    assert WorkOk(n.srv, c);
    var f := if n.srv.clusters[c].state == SendingNacks then SendingNack else SendingAck;
    var i :| InCluster(n.srv, c, i) && n.srv.sessions[i].poll.ff == f;
    assert LinkOk(n, i);
    var l := n.links[i];
    mv := if l.down != [] then Apply(i) else Reply(i, ReplyMsg(l.up[0]), [], 0);
  }

  // ---------------------------------------------------------------- delivery

  /** An ACK of decision `d` has been sent to the incarnation `id`. */
  ghost predicate AckSent(n: Net, id: nat, d: nat) {
    exists x :: x in n.log && x.link == id && x.note.vote == Ack && x.note.decision == d
  }

  /** `r` is reached from `n` by quiet moves. */
  ghost predicate QuietRun(n: Net, ms: seq<Move>, r: Net, maxRx: u32)
    decreases |ms|
  {
    Shaped(n) && if ms == [] then r == n
                 else Quiet(ms[0]) && Enabled(n, ms[0]) && QuietRun(Make(n, ms[0], maxRx), ms[1..], r, maxRx)
  }

  /** Session `i` of cluster `c` is sure of its ACK of decision `d`: it has been sent, or it is
      deferred and no reply of `i` can come in between. */
  ghost predicate Promised(n: Net, c: nat, d: nat, i: nat) {
    && i < |n.links| && c < |n.latest| == |n.srv.clusters|
    && InCluster(n.srv, c, i) && n.latest[c] == Some(d)
    && if n.srv.clusters[c].state == SendingNacks
       then n.srv.sessions[i].poll.ff == SendingAck && InFlight(n.links[i]) == 0
       else AckSent(n, n.links[i].id, d)
  }

  /** A decision promises an ACK to every winner whose earlier vote-infos are all answered. */
  lemma DecisionPromises(n: Net, tv: Trigger, w: Option<NodeList>, b: State, i: nat)
    requires NetInv(n) && Turn(n, tv, w, b) && b.clusters[Site(n, tv)].used
    requires InCluster(b, Site(n, tv), i) && Wins(w, b.sessions[i].nodeId) && InFlight(n.links[i]) == 0
    ensures Promised(Advance(n, b, Site(n, tv)), Site(n, tv), |n.decided|, i)
  {
    var c := Site(n, tv);
    assert DecidedAt(n.srv, tv, w, b, i);
    DecidesRecorded(n, tv, w, b);
    if AnyLoser(n.srv, tv, w) {
      PushNothing(n.links[i], |n.decided|);
    } else {
      assert NewVotes(n.srv, b, i) == [VoteFrame(n.srv, tv, true, i)];
      EntryLogged(n, b, c, i, 0);
      AckLogged(Advance(n, b, c), Entry(n, b, c, |n.decided|, i, 0));
    }
  }

  lemma AckLogged(n: Net, x: Sent)
    requires x in n.log && x.note.vote == Ack
    ensures AckSent(n, x.link, x.note.decision)
  {
  }

  lemma PromiseThroughSettling(n: Net, b: State, slot: nat, c: nat, d: nat, i: nat)
    requires NetInv(n) && Settles(n, b, slot) && Promised(n, c, d, i)
    ensures Promised(SettledNet(n, b, slot), c, d, i)
  {
    var r := SettledNet(n, b, slot);
    var k := n.srv.sessions[slot].cluster;
    SettledIsSettledBy(n, b, slot);
    assert AckAt(n.srv, b, slot, i) && LatestOk(n, c);
    SettlesLatest(n, b, slot, r, c);
    SettledLinks(n, b, slot, r, i);
    assert b.clusters[c] == n.srv.clusters[c].(state := b.clusters[c].state);
    if n.srv.clusters[c].state == SendingNacks {
      assert i != slot;
      if GetsAck(n, slot, i) {
        EntryLogged(TakeReply(n, slot), b, k, i, 0);
        AckLogged(r, Entry(TakeReply(n, slot), b, k, d, i, 0));
      }
    } else {
      AckKept(n, r, n.links[i].id, d);
    }
  }

  /** Nothing is ever taken out of the log. */
  lemma AckKept(n: Net, r: Net, id: nat, d: nat)
    requires n.log <= r.log && AckSent(n, id, d)
    ensures AckSent(r, id, d)
  {
    var x :| x in n.log && x.link == id && x.note.vote == Ack && x.note.decision == d;
    assert x in r.log;
  }

  lemma PromiseKept(n: Net, mv: Move, maxRx: u32, c: nat, d: nat, i: nat)
    requires NetInv(n) && Shaped(n) && Enabled(n, mv) && Quiet(mv) && Promised(n, c, d, i)
    ensures Promised(Make(n, mv, maxRx), c, d, i)
  {
    if mv.Reply? {
      if InFlight(n.links[mv.slot]) == 1 {
        SettlingMove(n, mv.slot, mv.msg, mv.frame, mv.now, maxRx);
        PromiseThroughSettling(n, Acknowledge(n.srv, mv.slot), mv.slot, c, d, i);
      } else {
        StaleMove(n, mv.slot, mv.msg, mv.frame, mv.now, maxRx);
      }
    }
  }

  /** After the last NACK reply every winner that was promised its ACK has been sent it. */
  lemma {:induction false} WinnersGetAcks(n: Net, ms: seq<Move>, r: Net, maxRx: u32, c: nat, d: nat, i: nat)
    requires NetInv(n) && QuietRun(n, ms, r, maxRx) && Promised(n, c, d, i)
    ensures NetInv(r) && Promised(r, c, d, i)
    ensures r.srv.clusters[c].state != SendingNacks ==> AckSent(r, r.links[i].id, d)
    decreases |ms|
  {
    if ms != [] {
      MakeInv(n, ms[0], maxRx);
      PromiseKept(n, ms[0], maxRx, c, d, i);
      WinnersGetAcks(Make(n, ms[0], maxRx), ms[1..], r, maxRx, c, d, i);
    }
  }

  // ---------------------------------------------------------------- and only then

  /** Session `i` stopped waiting without an ACK of its cluster's latest decision. */
  ghost predicate Forfeited(n: Net, c: nat, d: nat, i: nat) {
    && i < |n.links| && c < |n.latest| == |n.srv.clusters|
    && InCluster(n.srv, c, i) && n.latest[c] == Some(d)
    && n.srv.sessions[i].poll.ff == Waiting && !AckSent(n, n.links[i].id, d)
  }

  /** A deferred winner that still owes a reply to an earlier vote-info. */
  ghost predicate Exposed(n: Net, c: nat, d: nat, i: nat) {
    && i < |n.links| && c < |n.latest| == |n.srv.clusters|
    && InCluster(n.srv, c, i) && n.latest[c] == Some(d) && n.srv.clusters[c].state == SendingNacks
    && n.srv.sessions[i].poll.ff == SendingAck
    && 0 < InFlight(n.links[i]) <= WORD && !AckSent(n, n.links[i].id, d)
  }

  /** A decision with losers exposes the winners that still owe a reply. */
  lemma DecisionExposes(n: Net, tv: Trigger, w: Option<NodeList>, b: State, i: nat)
    requires NetInv(n) && Turn(n, tv, w, b) && b.clusters[Site(n, tv)].used && AnyLoser(n.srv, tv, w)
    requires InCluster(b, Site(n, tv), i) && Wins(w, b.sessions[i].nodeId) && 0 < InFlight(n.links[i]) <= WORD
    ensures Exposed(Advance(n, b, Site(n, tv)), Site(n, tv), |n.decided|, i)
  {
    assert DecidedAt(n.srv, tv, w, b, i);
    DecidesRecorded(n, tv, w, b);
    PushNothing(n.links[i], |n.decided|);
    NoAckYet(n, tv, w, b, n.links[i].id);
  }

  /** A decision with losers sends no ACK. */
  lemma NoAckYet(n: Net, tv: Trigger, w: Option<NodeList>, b: State, id: nat)
    requires NetInv(n) && Turn(n, tv, w, b) && AnyLoser(n.srv, tv, w)
    ensures !AckSent(Advance(n, b, Site(n, tv)), id, |n.decided|)
  {
    var c := Site(n, tv);
    forall x | x in Advance(n, b, c).log && x !in n.log
      ensures x.note.vote == Nack
    {
      var j, k := FreshEntry(n, b, c, x);
      assert Elsewhere(n.srv, b, c, j) && DecidedAt(n.srv, tv, w, b, j);
    }
    forall x | x in n.log
      ensures x.note.decision < |n.decided|
    {
      assert EntryOk(n, x);
    }
  }

  lemma ExposedSettles(n: Net, b: State, c: nat, d: nat, i: nat)
    requires NetInv(n) && Exposed(n, c, d, i) && Settles(n, b, i)
    ensures Forfeited(SettledNet(n, b, i), c, d, i)
  {
    assert WorkOk(n.srv, c) && LatestOk(n, c);
    if Releases(n.srv, i) {
      ReleaserWasNacked(n.srv, i);
    } else {
      SettledIsSettledBy(n, b, i);
      SettlingQuietly(n, b, i);
      SettlesLatest(n, b, i, SettledNet(n, b, i), c);
      assert AckAt(n.srv, b, i, i);
    }
  }

  /** The next move of an exposed winner: it applies, or its oldest reply arrives. */
  function NextMove(l: Link, i: nat): (mv: Move)
    requires InFlight(l) > 0
  {
    if l.down != [] then Apply(i) else Reply(i, ReplyMsg(l.up[0]), [], 0)
  }

  lemma ExposedMove(n: Net, maxRx: u32, c: nat, d: nat, i: nat)
    requires NetInv(n) && Shaped(n) && Exposed(n, c, d, i)
    ensures var mv := NextMove(n.links[i], i);
            && Quiet(mv) && Enabled(n, mv)
            && var r := Make(n, mv, maxRx);
               Forfeited(r, c, d, i) || (Exposed(r, c, d, i) && Weight(r.links[i]) < Weight(n.links[i]))
  {
    var l := n.links[i];
    var mv := NextMove(l, i);
    if mv.Reply? {
      if InFlight(l) == 1 {
        SettlingMove(n, i, mv.msg, [], 0, maxRx);
        ExposedSettles(n, Acknowledge(n.srv, i), c, d, i);
      } else {
        StaleMove(n, i, mv.msg, [], 0, maxRx);
      }
    }
  }

  /** A reply sends nothing to a session that awaits nothing. */
  lemma NothingNew(n: Net, b: State, slot: nat, i: nat, x: Sent)
    requires Settles(n, b, slot) && IdsOk(n, -1) && |n.links| == |n.srv.sessions| && i < |n.links|
    requires n.srv.sessions[i].poll.ff == Waiting
    requires x in SettledNet(n, b, slot).log && x !in n.log
    ensures x.link != n.links[i].id
  {
    var j, k := SettledEntry(n, b, slot, x);
    assert AckAt(n.srv, b, slot, i);
    assert OtherIds(n, i, j) && j != i;
  }

  lemma ForfeitThroughSettling(n: Net, b: State, slot: nat, c: nat, d: nat, i: nat)
    requires NetInv(n) && Settles(n, b, slot) && Forfeited(n, c, d, i)
    ensures Forfeited(SettledNet(n, b, slot), c, d, i)
  {
    var r := SettledNet(n, b, slot);
    SettledIsSettledBy(n, b, slot);
    assert AckAt(n.srv, b, slot, i) && LatestOk(n, c);
    SettlesLatest(n, b, slot, r, c);
    assert r.links[i].id == n.links[i].id;
    forall x | x in r.log && x !in n.log
      ensures x.link != n.links[i].id
    {
      NothingNew(n, b, slot, i, x);
    }
  }

  /** A forfeited ACK is not made up for: no quiet run sends it any more. */
  lemma {:induction false} ForfeitStays(n: Net, ms: seq<Move>, r: Net, maxRx: u32, c: nat, d: nat, i: nat)
    requires NetInv(n) && QuietRun(n, ms, r, maxRx) && Forfeited(n, c, d, i)
    ensures NetInv(r) && Forfeited(r, c, d, i)
    decreases |ms|
  {
    if ms != [] {
      MakeInv(n, ms[0], maxRx);
      ForfeitKept(n, ms[0], maxRx, c, d, i);
      ForfeitStays(Make(n, ms[0], maxRx), ms[1..], r, maxRx, c, d, i);
    }
  }

  lemma ForfeitKept(n: Net, mv: Move, maxRx: u32, c: nat, d: nat, i: nat)
    requires NetInv(n) && Shaped(n) && Enabled(n, mv) && Quiet(mv) && Forfeited(n, c, d, i)
    ensures Forfeited(Make(n, mv, maxRx), c, d, i)
  {
    if mv.Reply? {
      if InFlight(n.links[mv.slot]) == 1 {
        SettlingMove(n, mv.slot, mv.msg, mv.frame, mv.now, maxRx);
        ForfeitThroughSettling(n, Acknowledge(n.srv, mv.slot), mv.slot, c, d, i);
      } else {
        StaleMove(n, mv.slot, mv.msg, mv.frame, mv.now, maxRx);
      }
    }
  }
}
