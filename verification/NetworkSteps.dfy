/** Every move of the network keeps its invariant. */
module NetworkSteps {
  import opened Wire
  import opened Msg
  import opened ServerState
  import opened Votes
  import opened Protocol
  import opened Invariants
  import opened Effects
  import opened Network

  // ---------------------------------------------------------------- calm steps

  lemma CalmLinks(n: Net, b: State, c: nat)
    requires NetInv(n) && Calm(n.srv, b) && c < |n.latest|
    ensures Fits(n, b)
    ensures var r := Advance(n, b, c);
            r.links == n.links && r.decided == n.decided && r.log == n.log
            && (forall k :: 0 <= k < |n.latest| ==> r.latest[k] == if !b.clusters[k].used then None else n.latest[k])
  {
    var r := Advance(n, b, c);
    forall i | 0 <= i < |n.links|
      ensures r.links[i] == n.links[i] && NewVotes(n.srv, b, i) == []
    {
      PushNothing(n.links[i], Occasion(n, b, c));
    }
  }

  /** A cluster that stays in use stays with its latest decision. */
  lemma CalmLatest(n: Net, b: State, k: nat)
    requires NetInv(n) && Calm(n.srv, b) && k < |n.latest|
    ensures (if !b.clusters[k].used then None else n.latest[k]) == n.latest[k]
  {
    assert LatestOk(n, k);
  }

  lemma CalmNet(n: Net, b: State, c: nat)
    requires NetInv(n) && Calm(n.srv, b) && Inv(b, true) && Indexed(b) && c < |n.latest|
    ensures Fits(n, b) && NetInv(Advance(n, b, c))
  {
    CalmLinks(n, b, c);
    var r := Advance(n, b, c);
    forall k | 0 <= k < |n.latest|
      ensures r.latest[k] == n.latest[k] && LatestOk(r, k)
    {
      CalmLatest(n, b, k);
      assert LatestOk(n, k);
    }
    assert r.latest == n.latest;
    forall i | 0 <= i < |n.links|
      ensures LinkOk(r, i) && Logged(r, i)
      ensures CalmAt(n.srv, b, i)
    {
      assert LinkOk(n, i) && Logged(n, i) && CalmAt(n.srv, b, i);
      CalmLink(n, b, r, i);
    }
    forall x | x in r.log
      ensures EntryOk(r, x)
    {
      assert EntryOk(n, x);
      if x.note.vote == Ack {
        CalmSealed(n, b, r, x.cluster, x.note.decision);
      }
    }
    CalmRest(n, b, r);
  }

  lemma CalmLink(n: Net, b: State, r: Net, i: nat)
    requires NetInv(n) && Calm(n.srv, b) && Indexed(b) && i < |n.links|
    requires r.srv == b && r.links == n.links && r.latest == n.latest && r.log == n.log
    ensures LinkOk(r, i) && Logged(r, i)
  {
    assert LinkOk(n, i) && Logged(n, i) && CalmAt(n.srv, b, i);
    var s := n.srv.sessions[i];
    if s.phase != Active && b.sessions[i].phase == Active {
      assert Idling(n.links[i]);
    }
  }

  lemma CalmSealed(n: Net, b: State, r: Net, c: nat, d: nat)
    requires NetInv(n) && Calm(n.srv, b) && d < |n.decided| && Sealed(n, c, d)
    requires r.srv == b && r.links == n.links && r.decided == n.decided
    ensures Sealed(r, c, d)
  {
    forall p | InCluster(b, c, p) && b.sessions[p].nodeId !in n.decided[d].winners
      ensures NoAckUpTo(n.links[p], d)
    {
      assert CalmAt(n.srv, b, p) && LinkOk(n, p);
      if n.srv.sessions[p].phase == Active {
        assert InCluster(n.srv, c, p);
      }
    }
  }

  lemma CalmRest(n: Net, b: State, r: Net)
    requires NetInv(n) && Calm(n.srv, b)
    requires r.srv == b && r.links == n.links && r.decided == n.decided && r.latest == n.latest && r.nextId == n.nextId
    ensures RingsOk(r) && IdsOk(r, -1) && NackedOk(r)
  {
    forall i | 0 <= i < |n.links|
      ensures Awaits(r, i) && Untouched(r, i) && NackedAt(r, i)
    {
      assert CalmAt(n.srv, b, i) && Awaits(n, i) && Untouched(n, i) && NackedAt(n, i);
      if 0 <= b.sessions[i].cluster < |b.clusters| {
        CalmUnsettled(n, b, i);
      }
    }
    forall i, j | 0 <= i < |n.links| && 0 <= j < |n.links|
      ensures OtherIds(r, i, j)
    {
      assert OtherIds(n, i, j);
    }
  }

  lemma CalmUnsettled(n: Net, b: State, i: nat)
    requires Calm(n.srv, b) && i < |n.srv.sessions| && 0 <= b.sessions[i].cluster < |b.clusters|
    ensures Unsettled(n.srv, b.sessions[i].cluster) ==> Unsettled(b, b.sessions[i].cluster)
    ensures b.clusters[b.sessions[i].cluster].quorate == n.srv.clusters[b.sessions[i].cluster].quorate
  {
  }

  // ---------------------------------------------------------------- the end of a session

  lemma HangupInv(n: Net, slot: nat)
    requires slot < |n.links| && NetInvBut(n, slot) && n.srv.sessions[slot].phase != Active
    ensures NetInv(Hangup(n, slot))
  {
    var r := Hangup(n, slot);
    forall i | 0 <= i < |n.links|
      ensures LinkOk(r, i) && Logged(r, i) && NackedAt(r, i) && Awaits(r, i)
    {
      assert i != slot ==> LinkOk(n, i) && Logged(n, i) && NackedAt(n, i);
      assert Awaits(n, i);
    }
    forall c | 0 <= c < |n.latest|
      ensures LatestOk(r, c)
    {
      assert LatestOk(n, c);
    }
    forall x | x in n.log
      ensures EntryOk(r, x)
    {
      assert EntryOk(n, x);
    }
    HangupIds(n, slot);
  }

  lemma HangupIds(n: Net, slot: nat)
    requires slot < |n.links| == |n.srv.sessions| && IdsOk(n, slot)
    ensures IdsOk(Hangup(n, slot), -1)
  {
    var r := Hangup(n, slot);
    forall i, j | 0 <= i < |n.links| && 0 <= j < |n.links|
      ensures OtherIds(r, i, j)
    {
      assert OtherIds(n, i, j);
    }
    forall d | 0 <= d < |n.decided|
      ensures OldIds(n.decided[d], r.nextId) && n.nextId !in n.decided[d].nacked
    {
      assert OldIds(n.decided[d], n.nextId);
    }
    forall i | 0 <= i < |n.links|
      ensures Untouched(r, i)
    {
      assert i != slot ==> Untouched(n, i);
    }
  }

  // ---------------------------------------------------------------- decisions

  function Exempt(tv: Trigger): (r: int) {
    if tv.leaving then tv.slot else -1
  }

  /** The server took a decision, in one step from the server state of `n` to `b`. */
  ghost predicate Turn(n: Net, tv: Trigger, w: Option<NodeList>, b: State) {
    Fits(n, b) && Decides(n.srv, tv, w, b)
  }

  function Site(n: Net, tv: Trigger): (c: nat)
    requires ValidTrigger(n.srv, tv)
  {
    TriggerCluster(n.srv, tv)
  }

  /** `r` is `n` after a decision in cluster `c` that led the server to `b`: the decision is
      recorded, and the vote-infos of the step are in the channels and the log. */
  ghost predicate Recorded(n: Net, b: State, c: nat, r: Net) {
    && Fits(n, b) && c < |n.latest| && |r.latest| == |n.latest| && |r.links| == |n.links|
    && r.srv == b && r.decided == n.decided + [Record(n, b, c)] && r.nextId == n.nextId
    && (forall k :: 0 <= k < |n.latest| ==>
          r.latest[k] == if !b.clusters[k].used then None else if k == c then Some(|n.decided|) else n.latest[k])
    && (forall i :: 0 <= i < |n.links| ==> r.links[i] == Push(n.links[i], NewVotes(n.srv, b, i), |n.decided|))
    && n.log <= r.log
  }

  lemma DecidesRecorded(n: Net, tv: Trigger, w: Option<NodeList>, b: State)
    requires Turn(n, tv, w, b)
    ensures Recorded(n, b, Site(n, tv), Advance(n, b, Site(n, tv)))
  {
  }

  /** The log entry of the `k`-th vote-info a step in cluster `c` sends to slot `i`. */
  function Entry(n: Net, b: State, c: nat, d: nat, i: nat, k: nat): (x: Sent)
    requires Fits(n, b) && i < |n.links| && k < |NewVotes(n.srv, b, i)|
  {
    Sent(n.links[i].id, b.sessions[i].nodeId, c, ToNote(NewVotes(n.srv, b, i)[k], d))
  }

  lemma EntryLogged(n: Net, b: State, c: nat, i: nat, k: nat)
    requires Fits(n, b) && c < |n.latest| && i < |n.links| && k < |NewVotes(n.srv, b, i)|
    ensures Entry(n, b, c, Occasion(n, b, c), i, k) in Advance(n, b, c).log
  {
  }

  /** A new entry of the log is a vote-info of this step. */
  lemma FreshEntry(n: Net, b: State, c: nat, x: Sent) returns (i: nat, k: nat)
    requires Fits(n, b) && c < |n.latest| && x in Advance(n, b, c).log && x !in n.log
    ensures i < |n.links| && k < |NewVotes(n.srv, b, i)| && x == Entry(n, b, c, Occasion(n, b, c), i, k)
  {
    i, k :| 0 <= i < |n.links| && 0 <= k < |NewVotes(n.srv, b, i)|
            && x == Sent(n.links[i].id, b.sessions[i].nodeId, c, ToNote(NewVotes(n.srv, b, i)[k], Occasion(n, b, c)));
  }

  lemma DecidesLinkIn(n: Net, tv: Trigger, w: Option<NodeList>, b: State, r: Net, i: nat)
    requires Turn(n, tv, w, b) && InCluster(b, Site(n, tv), i) && b.clusters[Site(n, tv)].used
    requires LinkOk(n, i) && LatestOk(n, Site(n, tv)) && Recorded(n, b, Site(n, tv), r)
    ensures LinkOk(r, i)
  {
    var c := Site(n, tv);
    var d := |n.decided|;
    assert DecidedAt(n.srv, tv, w, b, i);
    var s := n.srv.sessions[i];
    var s' := b.sessions[i];
    var l := n.links[i];
    var cl := n.srv.clusters[c];
    var q0 := Has(cl.quorate, s.nodeId);
    assert Has(b.clusters[c].quorate, s'.nodeId) <==> Wins(w, s.nodeId);
    if !Wins(w, s.nodeId) {
      VotedLink(s.poll, s'.poll, false, b.clusters[c].state, n.latest[c], l, VoteFrame(n.srv, tv, false, i), d,
          cl.state, q0);
    } else if AnyLoser(n.srv, tv, w) {
      PushNothing(l, d);
      DeferredLink(s.poll, s'.poll, q0, cl.state, n.latest[c], l, d);
    } else {
      VotedLink(s.poll, s'.poll, true, b.clusters[c].state, n.latest[c], l, VoteFrame(n.srv, tv, true, i), d,
          cl.state, q0);
    }
  }

  lemma DecidesLoggedIn(n: Net, tv: Trigger, w: Option<NodeList>, b: State, i: nat)
    requires Turn(n, tv, w, b) && InCluster(b, Site(n, tv), i) && LinkOk(n, i) && Logged(n, i)
    ensures Logged(Advance(n, b, Site(n, tv)), i)
  {
    var d := |n.decided|;
    assert DecidedAt(n.srv, tv, w, b, i);
    if NewVotes(n.srv, b, i) == [] {
      PushNothing(n.links[i], d);
    } else {
      ChainPush(n.links[i], n.srv.sessions[i].poll.voteSeq, NewVotes(n.srv, b, i)[0], d);
    }
  }

  lemma DecidesLinkOut(n: Net, tv: Trigger, w: Option<NodeList>, b: State, r: Net, i: nat)
    requires Turn(n, tv, w, b) && Indexed(b) && Recorded(n, b, Site(n, tv), r)
    requires i < |n.links| && i != Exempt(tv) && !InCluster(b, Site(n, tv), i)
    requires LinkOk(n, i) && Logged(n, i)
    requires forall k :: 0 <= k < |n.latest| ==> LatestOk(n, k)
    ensures r.links[i] == n.links[i] && LinkOk(r, i) && Logged(r, i)
  {
    var c := Site(n, tv);
    PushNothing(n.links[i], |n.decided|);
    assert Elsewhere(n.srv, b, c, i) && Stays(n.srv, b, i);
    if b.sessions[i].phase == Active {
      var k := b.sessions[i].cluster;
      assert b.clusters[k] == n.srv.clusters[k];
      assert LatestOk(n, k);
    }
  }

  lemma DecidesLatest(n: Net, tv: Trigger, w: Option<NodeList>, b: State, r: Net, k: nat)
    requires Turn(n, tv, w, b) && Recorded(n, b, Site(n, tv), r) && k < |n.latest| && LatestOk(n, k)
    ensures LatestOk(r, k)
    ensures k != Site(n, tv) ==> r.latest[k] == n.latest[k]
    ensures k == Site(n, tv) && r.latest[k].Some? ==> r.latest[k].value == |n.decided|
  {
  }

  /** Earlier decisions stay sealed: the vote-infos of the new one are newer. */
  lemma DecidesSealed(n: Net, tv: Trigger, w: Option<NodeList>, b: State, r: Net, k: nat, d: nat)
    requires Turn(n, tv, w, b) && Recorded(n, b, Site(n, tv), r) && d < |n.decided| && Sealed(n, k, d)
    ensures Sealed(r, k, d)
  {
    var c := Site(n, tv);
    forall p | InCluster(b, k, p) && b.sessions[p].nodeId !in n.decided[d].winners
      ensures NoAckUpTo(r.links[p], d)
    {
      assert Elsewhere(n.srv, b, c, p);
      if k == c {
        assert DecidedAt(n.srv, tv, w, b, p);
      }
      assert InCluster(n.srv, k, p) && NoAckUpTo(n.links[p], d);
      assert r.links[p] == Push(n.links[p], NewVotes(n.srv, b, p), |n.decided|);
    }
  }

  /** A decision all members of its cluster won is sealed from the start. */
  lemma AllWinnersSeal(n: Net, b: State, c: nat, r: Net)
    requires Recorded(n, b, c, r)
    requires forall p :: InCluster(b, c, p) ==> b.sessions[p].nodeId in Ids(b.clusters[c].quorate)
    ensures Sealed(r, c, |n.decided|)
  {
  }

  /** With no loser every member of the cluster is a winner. */
  lemma DecidesSealsItself(n: Net, tv: Trigger, w: Option<NodeList>, b: State, r: Net)
    requires Turn(n, tv, w, b) && !AnyLoser(n.srv, tv, w) && b.clusters[Site(n, tv)].used
    requires Recorded(n, b, Site(n, tv), r)
    ensures Sealed(r, Site(n, tv), |n.decided|)
  {
    var c := Site(n, tv);
    forall p | InCluster(b, c, p)
      ensures b.sessions[p].nodeId in Ids(b.clusters[c].quorate)
    {
      assert DecidedAt(n.srv, tv, w, b, p);
      assert Wins(w, n.srv.sessions[p].nodeId);
    }
    AllWinnersSeal(n, b, c, r);
  }

  lemma DecidesOldEntry(n: Net, tv: Trigger, w: Option<NodeList>, b: State, r: Net, x: Sent)
    requires Turn(n, tv, w, b) && Recorded(n, b, Site(n, tv), r) && EntryOk(n, x) && LatestOk(n, x.cluster)
    ensures EntryOk(r, x)
  {
    DecidesLatest(n, tv, w, b, r, x.cluster);
    if x.note.vote == Ack {
      DecidesSealed(n, tv, w, b, r, x.cluster, x.note.decision);
    }
  }

  lemma DecidesNewEntry(n: Net, tv: Trigger, w: Option<NodeList>, b: State, r: Net, i: nat, k: nat)
    requires Turn(n, tv, w, b) && Book(b) && Recorded(n, b, Site(n, tv), r)
    requires i < |n.links| && k < |NewVotes(n.srv, b, i)|
    ensures EntryOk(r, Entry(n, b, Site(n, tv), |n.decided|, i, k))
  {
    var c := Site(n, tv);
    assert Elsewhere(n.srv, b, c, i);
    assert InCluster(b, c, i) && DecidedAt(n.srv, tv, w, b, i);
    assert MemberOk(b, i);
    if Wins(w, n.srv.sessions[i].nodeId) {
      RecordHas(n, b, c, i);
      DecidesSealsItself(n, tv, w, b, r);
    } else {
      RecordTells(n, b, c, i);
    }
  }

  lemma RecordTells(n: Net, b: State, c: nat, i: nat)
    requires Fits(n, b) && c < |n.latest| && InCluster(b, c, i) && b.sessions[i].poll.ff == SendingNack
    ensures (n.links[i].id, b.sessions[i].ring) in Record(n, b, c).told
  {
  }

  lemma RecordTellsOnce(n: Net, b: State, c: nat)
    requires Fits(n, b) && c < |n.latest| && IdsOk(n, -1)
    ensures OneTold(Record(n, b, c))
  {
    var d := Record(n, b, c);
    forall p, q | p in d.told && q in d.told && p.0 == q.0
      ensures p.1 == q.1
    {
      var i :| 0 <= i < |b.sessions| && InCluster(b, c, i) && p == (n.links[i].id, b.sessions[i].ring);
      var j :| 0 <= j < |b.sessions| && InCluster(b, c, j) && q == (n.links[j].id, b.sessions[j].ring);
      assert OtherIds(n, i, j);
    }
  }

  /** All sessions a decision marks for an ACK share one ring. */
  lemma RecordRings(n: Net, b: State, c: nat, x: RingId, y: RingId)
    requires Fits(n, b) && c < |n.latest| && AckedOk(b, c)
    requires x in Record(n, b, c).rings && y in Record(n, b, c).rings && !Unsettled(b, c)
    ensures x == y
  {
    var i :| InCluster(b, c, i) && b.sessions[i].poll.ff == SendingAck && b.sessions[i].ring == x;
    var j :| InCluster(b, c, j) && b.sessions[j].poll.ff == SendingAck && b.sessions[j].ring == y;
    assert Holder(b, c, i) && Holder(b, c, j);
  }

  lemma RecordHas(n: Net, b: State, c: nat, i: nat)
    requires Fits(n, b) && c < |n.latest| && InCluster(b, c, i) && b.sessions[i].poll.ff == SendingAck
    ensures b.sessions[i].ring in Record(n, b, c).rings
  {
  }

  lemma DecidesAwaits(n: Net, tv: Trigger, w: Option<NodeList>, b: State, r: Net, i: nat)
    requires Turn(n, tv, w, b) && Recorded(n, b, Site(n, tv), r) && i < |n.links| && Awaits(n, i)
    requires forall k :: 0 <= k < |n.latest| ==> LatestOk(n, k)
    ensures Awaits(r, i)
  {
    var c := Site(n, tv);
    var k := b.sessions[i].cluster;
    if InCluster(b, c, i) {
      if b.sessions[i].poll.ff == SendingAck {
        RecordHas(n, b, c, i);
      }
    } else if b.sessions[i].phase == Active && 0 <= k < |n.latest| {
      assert Elsewhere(n.srv, b, c, i) && LatestOk(n, k);
      assert b.clusters[k] == n.srv.clusters[k];
    }
  }

  lemma DecidesRings(n: Net, tv: Trigger, w: Option<NodeList>, b: State, r: Net)
    requires Turn(n, tv, w, b) && Recorded(n, b, Site(n, tv), r) && RingsOk(n) && AckedOk(b, Site(n, tv))
    requires IdsOk(n, -1) && forall k :: 0 <= k < |n.latest| ==> LatestOk(n, k)
    ensures RingsOk(r)
  {
    var c := Site(n, tv);
    forall d | 0 <= d < |r.decided|
      ensures OneRing(r.decided[d]) && OneTold(r.decided[d])
    {
      if d == |n.decided| {
        RecordTellsOnce(n, b, c);
        forall x, y | x in r.decided[d].rings && y in r.decided[d].rings
          ensures x == y
        {
          RecordRings(n, b, c, x, y);
        }
      } else {
        assert OneRing(n.decided[d]) && OneTold(n.decided[d]);
      }
    }
    forall i | 0 <= i < |b.sessions|
      ensures Awaits(r, i)
    {
      assert Awaits(n, i);
      DecidesAwaits(n, tv, w, b, r, i);
    }
  }

  lemma DecidesUntouched(n: Net, tv: Trigger, w: Option<NodeList>, b: State, r: Net, i: nat)
    requires Turn(n, tv, w, b) && Recorded(n, b, Site(n, tv), r) && IdsOk(n, -1) && i < |n.links| && i != Exempt(tv)
    ensures Untouched(r, i)
  {
    assert Stays(n.srv, b, i) && Untouched(n, i);
    assert r.links[i].id == n.links[i].id;
    if b.sessions[i].phase != Active {
      NotNacked(n, b, Site(n, tv), i);
    }
  }

  /** A session that is not active is not NACKed. */
  lemma NotNacked(n: Net, b: State, c: nat, i: nat)
    requires Fits(n, b) && c < |n.latest| && IdsOk(n, -1) && i < |n.links| && b.sessions[i].phase != Active
    ensures n.links[i].id !in Record(n, b, c).nacked
  {
    forall j | 0 <= j < |b.sessions| && InCluster(b, c, j)
      ensures n.links[j].id != n.links[i].id
    {
      assert OtherIds(n, i, j);
    }
  }

  lemma DecidesIds(n: Net, tv: Trigger, w: Option<NodeList>, b: State, r: Net)
    requires Turn(n, tv, w, b) && Recorded(n, b, Site(n, tv), r) && IdsOk(n, -1)
    ensures IdsOk(r, Exempt(tv))
  {
    forall i | 0 <= i < |n.links|
      ensures r.links[i].id == n.links[i].id && r.links[i].id < r.nextId
    {
    }
    forall i, j | 0 <= i < |n.links| && 0 <= j < |n.links|
      ensures OtherIds(r, i, j)
    {
      assert OtherIds(n, i, j);
    }
    forall d | 0 <= d < |r.decided|
      ensures OldIds(r.decided[d], r.nextId)
    {
      if d < |n.decided| {
        assert OldIds(n.decided[d], n.nextId);
      }
    }
    forall i | 0 <= i < |n.links| && i != Exempt(tv)
      ensures Untouched(r, i)
    {
      DecidesUntouched(n, tv, w, b, r, i);
    }
  }

  lemma DecidesNackedAt(n: Net, tv: Trigger, w: Option<NodeList>, b: State, r: Net, i: nat)
    requires Turn(n, tv, w, b) && Recorded(n, b, Site(n, tv), r) && IdsOk(n, -1) && AckedOk(b, Site(n, tv))
    requires i < |n.links| && LinkOk(n, i) && NackedAt(n, i)
    requires forall k :: 0 <= k < |n.latest| ==> LatestOk(n, k)
    ensures NackedAt(r, i)
  {
    var c := Site(n, tv);
    var k := b.sessions[i].cluster;
    assert r.links[i].id == n.links[i].id;
    if InCluster(b, c, i) {
      if n.links[i].id in Record(n, b, c).nacked {
        NackedIsMarked(n, b, c, i);
        assert DecidedAt(n.srv, tv, w, b, i);
        ChainPush(n.links[i], n.srv.sessions[i].poll.voteSeq, VoteFrame(n.srv, tv, false, i), |n.decided|);
      }
    } else if b.sessions[i].phase == Active && 0 <= k < |n.latest| {
      assert Elsewhere(n.srv, b, c, i) && LatestOk(n, k);
      assert b.clusters[k] == n.srv.clusters[k];
      PushNothing(n.links[i], |n.decided|);
    }
  }

  /** The incarnations on record as NACKed are the sessions marked for a NACK. */
  lemma NackedIsMarked(n: Net, b: State, c: nat, i: nat)
    requires Fits(n, b) && c < |n.latest| && IdsOk(n, -1) && i < |n.links|
    requires n.links[i].id in Record(n, b, c).nacked
    ensures InCluster(b, c, i) && b.sessions[i].poll.ff == SendingNack
  {
    var j :| 0 <= j < |b.sessions| && InCluster(b, c, j) && b.sessions[j].poll.ff == SendingNack
        && n.links[j].id == n.links[i].id;
    assert OtherIds(n, i, j);
  }

  lemma DecidesNacked(n: Net, tv: Trigger, w: Option<NodeList>, b: State, r: Net)
    requires Turn(n, tv, w, b) && Recorded(n, b, Site(n, tv), r)
    requires NackedOk(n) && IdsOk(n, -1) && AckedOk(b, Site(n, tv))
    requires forall k :: 0 <= k < |n.latest| ==> LatestOk(n, k)
    requires forall i :: 0 <= i < |n.links| ==> LinkOk(n, i)
    ensures NackedOk(r)
  {
    forall i | 0 <= i < |r.links|
      ensures NackedAt(r, i)
    {
      assert NackedAt(n, i) && LinkOk(n, i);
      DecidesNackedAt(n, tv, w, b, r, i);
    }
  }

  /** A decision keeps the invariant of the network. */
  lemma DecidesNet(n: Net, tv: Trigger, w: Option<NodeList>, b: State)
    requires NetInv(n) && Turn(n, tv, w, b) && Inv(b, true) && Indexed(b)
    ensures NetInvBut(Advance(n, b, Site(n, tv)), Exempt(tv))
  {
    var c := Site(n, tv);
    var r := Advance(n, b, c);
    DecidesRecorded(n, tv, w, b);
    DecidesAllLinks(n, tv, w, b);
    forall k | 0 <= k < |n.latest|
      ensures LatestOk(r, k)
    {
      DecidesLatest(n, tv, w, b, r, k);
    }
    forall x | x in n.log
      ensures EntryOk(n, x) && LatestOk(n, x.cluster)
    {
    }
    DecidesLog(n, tv, w, b);
    assert AckedOk(b, c);
    DecidesRings(n, tv, w, b, r);
    DecidesIds(n, tv, w, b, r);
    DecidesNacked(n, tv, w, b, r);
  }

  lemma DecidesLink(n: Net, tv: Trigger, w: Option<NodeList>, b: State, r: Net, i: nat)
    requires Turn(n, tv, w, b) && Recorded(n, b, Site(n, tv), r)
    requires Indexed(b) && i < |n.links| && i != Exempt(tv) && MemberOk(b, i)
    requires LinkOk(n, i) && Logged(n, i) && forall k :: 0 <= k < |n.latest| ==> LatestOk(n, k)
    requires InCluster(b, Site(n, tv), i) ==> Logged(r, i)
    ensures LinkOk(r, i) && Logged(r, i)
  {
    var c := Site(n, tv);
    if InCluster(b, c, i) {
      assert LatestOk(n, c);
      DecidesLinkIn(n, tv, w, b, r, i);
    } else {
      DecidesLinkOut(n, tv, w, b, r, i);
    }
  }

  lemma DecidesAllLinks(n: Net, tv: Trigger, w: Option<NodeList>, b: State)
    requires NetInv(n) && Turn(n, tv, w, b) && Book(b) && Indexed(b)
    ensures var r := Advance(n, b, Site(n, tv));
            forall i :: 0 <= i < |r.links| && i != Exempt(tv) ==> LinkOk(r, i) && Logged(r, i)
  {
    var r := Advance(n, b, Site(n, tv));
    DecidesRecorded(n, tv, w, b);
    forall i | 0 <= i < |n.links| && i != Exempt(tv)
      ensures LinkOk(r, i) && Logged(r, i)
    {
      assert LinkOk(n, i) && Logged(n, i) && MemberOk(b, i);
      if InCluster(b, Site(n, tv), i) {
        DecidesLoggedIn(n, tv, w, b, i);
      }
      DecidesLink(n, tv, w, b, r, i);
    }
  }

  lemma DecidesLog(n: Net, tv: Trigger, w: Option<NodeList>, b: State)
    requires Turn(n, tv, w, b) && Book(b)
    requires forall x :: x in n.log ==> EntryOk(n, x) && LatestOk(n, x.cluster)
    ensures var r := Advance(n, b, Site(n, tv)); forall x :: x in r.log ==> EntryOk(r, x)
  {
    var c := Site(n, tv);
    var r := Advance(n, b, c);
    DecidesRecorded(n, tv, w, b);
    forall x | x in r.log
      ensures EntryOk(r, x)
    {
      if x in n.log {
        DecidesOldEntry(n, tv, w, b, r, x);
      } else {
        var i, k := FreshEntry(n, b, c, x);
        DecidesNewEntry(n, tv, w, b, r, i, k);
        assert EntryOk(r, Entry(n, b, c, |n.decided|, i, k));
      }
    }
  }

  // ---------------------------------------------------------------- a close without a decision

  /** Without a decision nothing enters the channels or the log. */
  lemma QuietAdvance(n: Net, b: State, c: nat)
    requires Fits(n, b) && c < |n.latest| && !DecidedNow(n, b)
    requires forall i :: 0 <= i < |n.links| ==> NewVotes(n.srv, b, i) == []
    ensures var r := Advance(n, b, c); r.links == n.links && r.decided == n.decided && r.log == n.log
  {
    var r := Advance(n, b, c);
    forall i | 0 <= i < |n.links|
      ensures r.links[i] == n.links[i] && NewVotes(n.srv, b, i) == []
    {
      PushNothing(n.links[i], Occasion(n, b, c));
    }
  }

  lemma CalmCloseNet(n: Net, b: State, slot: nat, c: nat)
    requires NetInv(n) && CalmClose(n.srv, b, slot) && Inv(b, true) && Indexed(b) && c < |n.latest|
    ensures Fits(n, b) && NetInvBut(Advance(n, b, c), slot)
  {
    QuietAdvance(n, b, c);
    var r := Advance(n, b, c);
    forall k | 0 <= k < |n.latest|
      ensures LatestOk(r, k)
    {
      assert LatestOk(n, k);
    }
    forall i | 0 <= i < |n.links|
      ensures Awaits(r, i) && NackedAt(r, i)
      ensures i != slot ==> LinkOk(r, i) && Logged(r, i) && Untouched(r, i)
    {
      assert LinkOk(n, i) && Logged(n, i) && Awaits(n, i) && Untouched(n, i) && NackedAt(n, i);
      CalmCloseLink(n, b, slot, r, i);
    }
    forall x | x in r.log
      ensures EntryOk(r, x)
    {
      assert EntryOk(n, x);
    }
    forall i, j | 0 <= i < |n.links| && 0 <= j < |n.links|
      ensures OtherIds(r, i, j)
    {
      assert OtherIds(n, i, j);
    }
  }

  lemma CalmCloseLink(n: Net, b: State, slot: nat, r: Net, i: nat)
    requires CalmClose(n.srv, b, slot) && Book(b) && Indexed(b) && Fits(n, b) && i < |n.links|
    requires r.srv == b && r.links == n.links && r.decided == n.decided && r.log == n.log && |r.latest| == |n.latest|
    requires forall k :: 0 <= k < |n.latest| ==> r.latest[k] == if !b.clusters[k].used then None else n.latest[k]
    requires LinkOk(n, i) && Logged(n, i) && Awaits(n, i) && Untouched(n, i) && NackedAt(n, i)
    ensures Awaits(r, i) && NackedAt(r, i)
    ensures i != slot ==> LinkOk(r, i) && Logged(r, i) && Untouched(r, i)
  {
    if i != slot && b.sessions[i].phase == Active {
      var k := b.sessions[i].cluster;
      assert MemberOk(b, i);
      assert b.clusters[k].used;
      assert r.latest[k] == n.latest[k];
    }
  }

  // ---------------------------------------------------------------- clients and replies

  /** A client applies the oldest vote-info on its way to it and replies. */
  function ClientApplies(n: Net, slot: nat): (r: Net)
    requires slot < |n.links| && n.links[slot].down != []
  {
    n.(links := n.links[slot := Applied(n.links[slot])])
  }

  lemma AppliesNet(n: Net, slot: nat)
    requires NetInv(n) && slot < |n.links| && n.links[slot].down != []
    ensures NetInv(ClientApplies(n, slot))
  {
    var r := ClientApplies(n, slot);
    assert LinkOk(n, slot) && Logged(n, slot);
    var s := n.srv.sessions[slot];
    var cl := n.srv.clusters[s.cluster];
    AppliedLink(s.poll, Has(cl.quorate, s.nodeId), cl.state, n.latest[s.cluster], n.links[slot]);
    RelinkInv(n, r, slot);
  }

  /** Replacing one link by one that is fit for its session and carries no more, with the same
      latest note, keeps the invariant. */
  lemma RelinkInv(n: Net, r: Net, slot: nat)
    requires NetInv(n) && slot < |n.links| && |r.links| == |n.links| && r == n.(links := n.links[slot := r.links[slot]])
    requires LinkOk(r, slot) && r.links[slot].id == n.links[slot].id
    requires forall x :: Carries(r.links[slot], x) ==> Carries(n.links[slot], x)
    requires LastNote(r.links[slot]) == LastNote(n.links[slot])
    ensures NetInv(r)
  {
    forall i | 0 <= i < |n.links|
      ensures LinkOk(r, i) && Logged(r, i) && Awaits(r, i) && Untouched(r, i) && NackedAt(r, i)
    {
      assert LinkOk(n, i) && Logged(n, i) && Awaits(n, i) && Untouched(n, i) && NackedAt(n, i);
    }
    forall k | 0 <= k < |n.latest|
      ensures LatestOk(r, k)
    {
      assert LatestOk(n, k);
    }
    forall x | x in r.log
      ensures EntryOk(r, x)
    {
      assert EntryOk(n, x);
      if x.note.vote == Ack {
        RelinkSealed(n, r, slot, x.cluster, x.note.decision);
      }
    }
    forall i, j | 0 <= i < |n.links| && 0 <= j < |n.links|
      ensures OtherIds(r, i, j)
    {
      assert OtherIds(n, i, j);
    }
  }

  lemma RelinkSealed(n: Net, r: Net, slot: nat, c: nat, d: nat)
    requires slot < |n.links| == |n.srv.sessions| && |r.links| == |n.links|
        && r == n.(links := n.links[slot := r.links[slot]])
    requires forall x :: Carries(r.links[slot], x) ==> Carries(n.links[slot], x)
    requires d < |n.decided| && Sealed(n, c, d)
    ensures Sealed(r, c, d)
  {
    forall p | InCluster(r.srv, c, p) && r.srv.sessions[p].nodeId !in r.decided[d].winners
      ensures NoAckUpTo(r.links[p], d)
    {
      assert NoAckUpTo(n.links[p], d);
      if p == slot {
        forall k | 0 <= k < |r.links[p].down|
          ensures !(r.links[p].down[k].vote == Ack && r.links[p].down[k].decision <= d)
        {
          assert Carries(r.links[p], r.links[p].down[k]);
        }
        if r.links[p].held.Some? {
          assert Carries(r.links[p], r.links[p].held.value);
        }
      }
    }
  }

  // ---------------------------------------------------------------- acknowledgements

  /** The oldest reply of `slot` leaves the channel. */
  function TakeReply(n: Net, slot: nat): (r: Net)
    requires slot < |n.links| && n.links[slot].up != []
  {
    n.(links := n.links[slot := Taken(n.links[slot])])
  }

  /** The server handles the reply to the latest vote-info of `slot`, the only one unanswered. */
  ghost predicate Settles(n: Net, b: State, slot: nat) {
    && slot < |n.links| && n.links[slot].up != [] && InFlight(n.links[slot]) == 1
    && Acks(n.srv, b, slot) && Fits(n, b) && n.srv.sessions[slot].phase == Active
  }

  ghost function SettledNet(n: Net, b: State, slot: nat): (r: Net)
    requires Settles(n, b, slot)
  {
    Advance(TakeReply(n, slot), b, n.srv.sessions[slot].cluster)
  }

  /** `r` is `n` after that reply, as far as channels and history are concerned. */
  ghost predicate SettledBy(n: Net, b: State, slot: nat, r: Net) {
    && Settles(n, b, slot) && r.srv == b && r.decided == n.decided && r.nextId == n.nextId
    && |r.links| == |n.links| && |r.latest| == |n.latest| && n.log <= r.log
    && (forall k :: 0 <= k < |n.latest| ==> r.latest[k] == if !b.clusters[k].used then None else n.latest[k])
    && (forall i :: 0 <= i < |n.links| ==>
          r.links[i] == Push(if i == slot then Taken(n.links[i]) else n.links[i], NewVotes(n.srv, b, i),
                             Occasion(n, b, n.srv.sessions[slot].cluster)))
  }

  lemma SettledIsSettledBy(n: Net, b: State, slot: nat)
    requires Settles(n, b, slot)
    ensures SettledBy(n, b, slot, SettledNet(n, b, slot))
  {
  }

  /** Session `i` is sent its ACK by this reply. */
  ghost predicate GetsAck(n: Net, slot: nat, i: nat)
    requires slot < |n.srv.sessions| && i < |n.srv.sessions|
  {
    Releases(n.srv, slot) && i != slot && InCluster(n.srv, n.srv.sessions[slot].cluster, i)
    && n.srv.sessions[i].poll.ff == SendingAck
  }

  /** The vote-info that releases the ACK of session `i`. */
  function AckFrame(n: Net, i: nat): (f: Reply)
    requires i < |n.srv.sessions|
  {
    VoteInfo(Succ32(n.srv.sessions[i].poll.voteSeq), n.srv.sessions[i].ring, Ack)
  }

  /** What the reply means to the link of session `i`. */
  lemma SettledLinks(n: Net, b: State, slot: nat, r: Net, i: nat)
    requires SettledBy(n, b, slot, r) && i < |n.links|
    ensures if GetsAck(n, slot, i)
            then NewVotes(n.srv, b, i) == [AckFrame(n, i)]
                 && r.links[i] == Push(n.links[i], [AckFrame(n, i)], Occasion(n, b, n.srv.sessions[slot].cluster))
            else r.links[i] == if i == slot then Taken(n.links[i]) else n.links[i]
  {
    assert AckAt(n.srv, b, slot, i);
    if !GetsAck(n, slot, i) {
      PushNothing(if i == slot then Taken(n.links[i]) else n.links[i], Occasion(n, b, n.srv.sessions[slot].cluster));
    }
  }

  lemma SettlesLink(n: Net, b: State, slot: nat, r: Net, i: nat)
    requires SettledBy(n, b, slot, r) && i < |n.links| && LinkOk(n, i)
    requires forall k :: 0 <= k < |n.latest| ==> LatestOk(n, k)
    requires HoldersQuorate(n.srv, n.srv.sessions[slot].cluster)
    ensures LinkOk(r, i)
  {
    var c := n.srv.sessions[slot].cluster;
    var s := n.srv.sessions[i];
    assert AckAt(n.srv, b, slot, i);
    SettledLinks(n, b, slot, r, i);
    if s.phase == Active {
      var k := s.cluster;
      assert LatestOk(n, k);
      assert b.clusters[k] == n.srv.clusters[k].(state := b.clusters[k].state);
      var q := Has(n.srv.clusters[k].quorate, s.nodeId);
      if i == slot {
        SettledLink(s.poll, b.sessions[i].poll, q, n.srv.clusters[k].state, b.clusters[k].state, n.latest[k],
            n.links[i]);
      } else if GetsAck(n, slot, i) {
        assert Holder(n.srv, c, i);
        VotedLink(s.poll, b.sessions[i].poll, true, b.clusters[k].state, n.latest[k], n.links[i], AckFrame(n, i),
                  n.latest[k].value, n.srv.clusters[k].state, q);
      }
    }
  }

  lemma SettlesLogged(n: Net, b: State, slot: nat, i: nat)
    requires Settles(n, b, slot) && i < |n.links| && LinkOk(n, i) && Logged(n, i)
    ensures Logged(SettledNet(n, b, slot), i)
  {
    var c := n.srv.sessions[slot].cluster;
    var r := SettledNet(n, b, slot);
    SettledIsSettledBy(n, b, slot);
    SettledLinks(n, b, slot, r, i);
    assert AckAt(n.srv, b, slot, i);
    if GetsAck(n, slot, i) {
      var d := Occasion(n, b, c);
      ChainPush(n.links[i], n.srv.sessions[i].poll.voteSeq, AckFrame(n, i), d);
      EntryLogged(TakeReply(n, slot), b, c, i, 0);
    }
  }

  lemma SettlesLatest(n: Net, b: State, slot: nat, r: Net, k: nat)
    requires SettledBy(n, b, slot, r) && k < |n.latest| && LatestOk(n, k)
    ensures r.latest[k] == n.latest[k] && LatestOk(r, k)
  {
    assert b.clusters[k] == n.srv.clusters[k].(state := b.clusters[k].state);
  }

  /** Decisions stay sealed: an ACK of the latest one only goes to its winners. */
  lemma SettlesSealed(n: Net, b: State, slot: nat, r: Net, k: nat, d: nat)
    requires SettledBy(n, b, slot, r) && k < |n.latest| && LatestOk(n, k)
    requires d < |n.decided| && Sealed(n, k, d) && (n.latest[k].Some? ==> d <= n.latest[k].value)
    requires HoldersQuorate(n.srv, n.srv.sessions[slot].cluster)
    requires forall i :: 0 <= i < |n.links| ==> LinkOk(n, i)
    ensures Sealed(r, k, d)
  {
    var c := n.srv.sessions[slot].cluster;
    forall p | InCluster(b, k, p) && b.sessions[p].nodeId !in n.decided[d].winners
      ensures NoAckUpTo(r.links[p], d)
    {
      assert AckAt(n.srv, b, slot, p) && LinkOk(n, p);
      assert InCluster(n.srv, k, p) && NoAckUpTo(n.links[p], d);
      SettledLinks(n, b, slot, r, p);
      if GetsAck(n, slot, p) {
        assert Holder(n.srv, c, p) && k == c;
        assert d < n.latest[c].value;
      }
    }
  }

  /** When the ACKs are released nobody outside the partition can still apply an ACK. */
  lemma ReleaseSeals(n: Net, b: State, slot: nat, r: Net)
    requires NetInv(n) && SettledBy(n, b, slot, r)
    requires Releases(n.srv, slot) && n.latest[n.srv.sessions[slot].cluster].Some?
    ensures var c := n.srv.sessions[slot].cluster;
            n.latest[c].value < |n.decided| && Sealed(r, c, n.latest[c].value)
  {
    var c := n.srv.sessions[slot].cluster;
    var d := n.latest[c].value;
    assert LatestOk(n, c) && AckedOk(n.srv, c);
    SettlesLatest(n, b, slot, r, c);
    forall p | InCluster(b, c, p) && b.sessions[p].nodeId !in r.decided[d].winners
      ensures NoAckUpTo(r.links[p], d)
    {
      assert AckAt(n.srv, b, slot, p) && LinkOk(n, p);
      SettlesLink(n, b, slot, r, p);
      assert InCluster(n.srv, c, p);
      OutsiderSealed(b.sessions[p].poll, b.clusters[c].state, n.latest[c], r.links[p], d);
    }
  }

  lemma SettlesOldEntry(n: Net, b: State, slot: nat, r: Net, x: Sent)
    requires NetInv(n) && SettledBy(n, b, slot, r) && x in n.log
    ensures EntryOk(r, x)
  {
    assert EntryOk(n, x) && LatestOk(n, x.cluster) && AckedOk(n.srv, n.srv.sessions[slot].cluster);
    SettlesLatest(n, b, slot, r, x.cluster);
    if x.note.vote == Ack {
      SettlesSealed(n, b, slot, r, x.cluster, x.note.decision);
    }
  }

  /** A vote-info a reply sets off is the ACK of a session that awaits it, and of the latest
      decision. */
  lemma SettlesNewEntry(n: Net, b: State, slot: nat, r: Net, i: nat, k: nat)
    requires NetInv(n) && SettledBy(n, b, slot, r) && i < |n.links| && k < |NewVotes(n.srv, b, i)|
    ensures var c := n.srv.sessions[slot].cluster;
            && GetsAck(n, slot, i) && n.latest[c].Some? && Occasion(n, b, c) == n.latest[c].value
            && EntryOk(r, Entry(n, b, c, n.latest[c].value, i, k))
  {
    var c := n.srv.sessions[slot].cluster;
    assert AckAt(n.srv, b, slot, i) && LinkOk(n, i) && LatestOk(n, c) && AckedOk(n.srv, c) && Awaits(n, i);
    assert Holder(n.srv, c, i);
    SettlesLatest(n, b, slot, r, c);
    ReleaseSeals(n, b, slot, r);
  }

  /** A new entry of the log is a vote-info the reply set off. */
  lemma SettledEntry(n: Net, b: State, slot: nat, x: Sent) returns (i: nat, k: nat)
    requires Settles(n, b, slot) && x in SettledNet(n, b, slot).log && x !in n.log
    ensures i < |n.links| && k < |NewVotes(n.srv, b, i)|
    ensures var c := n.srv.sessions[slot].cluster; x == Entry(n, b, c, Occasion(n, b, c), i, k)
  {
    i, k := FreshEntry(TakeReply(n, slot), b, n.srv.sessions[slot].cluster, x);
  }

  lemma SettlesLog(n: Net, b: State, slot: nat)
    requires NetInv(n) && Settles(n, b, slot)
    ensures var r := SettledNet(n, b, slot); forall x :: x in r.log ==> EntryOk(r, x)
  {
    var r := SettledNet(n, b, slot);
    SettledIsSettledBy(n, b, slot);
    forall x | x in r.log
      ensures EntryOk(r, x)
    {
      if x in n.log {
        SettlesOldEntry(n, b, slot, r, x);
      } else {
        var i, k := SettledEntry(n, b, slot, x);
        SettlesNewEntry(n, b, slot, r, i, k);
      }
    }
  }

  lemma SettlesRest(n: Net, b: State, slot: nat, r: Net, i: nat)
    requires NetInv(n) && SettledBy(n, b, slot, r) && i < |n.links|
    ensures Awaits(r, i) && Untouched(r, i) && NackedAt(r, i)
  {
    var k := n.srv.sessions[i].cluster;
    assert AckAt(n.srv, b, slot, i) && Awaits(n, i) && Untouched(n, i) && NackedAt(n, i) && LinkOk(n, i);
    SettledLinks(n, b, slot, r, i);
    if n.srv.sessions[i].phase == Active {
      assert LatestOk(n, k);
      SettlesLatest(n, b, slot, r, k);
    }
  }

  lemma SettlesNet(n: Net, b: State, slot: nat)
    requires NetInv(n) && Settles(n, b, slot) && Inv(b, true) && Indexed(b)
    ensures NetInv(SettledNet(n, b, slot))
  {
    var r := SettledNet(n, b, slot);
    SettledIsSettledBy(n, b, slot);
    assert AckedOk(n.srv, n.srv.sessions[slot].cluster);
    forall i | 0 <= i < |n.links|
      ensures LinkOk(r, i) && Logged(r, i) && Awaits(r, i) && Untouched(r, i) && NackedAt(r, i)
    {
      assert LinkOk(n, i) && Logged(n, i);
      SettlesLink(n, b, slot, r, i);
      SettlesLogged(n, b, slot, i);
      SettlesRest(n, b, slot, r, i);
    }
    forall k | 0 <= k < |n.latest|
      ensures LatestOk(r, k)
    {
      assert LatestOk(n, k);
      SettlesLatest(n, b, slot, r, k);
    }
    SettlesLog(n, b, slot);
    forall i, j | 0 <= i < |n.links| && 0 <= j < |n.links|
      ensures OtherIds(r, i, j)
    {
      assert OtherIds(n, i, j);
    }
  }
}
