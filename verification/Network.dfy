/** The server and its clients, joined by FIFO channels. Clients apply vote-infos in the order they
    arrive and reply to each exactly once, with its sequence number; a client whose session ends
    drops its vote. Everything else a client sends is arbitrary. */
module Network {
  import opened Wire
  import opened Msg
  import opened ServerState
  import opened Protocol
  import opened Invariants
  import opened Effects
  import Runs

  /** A vote-info on its way to, or applied by, a client, with the decision it belongs to. */
  datatype Note = Note(seqNo: u32, ring: RingId, vote: Vote, decision: nat)

  /** One session incarnation: vote-infos sent so far, those in flight, the sequence numbers of the
      replies in flight, and the vote the client currently applies. */
  datatype Link = Link(id: nat, sent: nat, down: seq<Note>, up: seq<u32>, held: Option<Note>)

  /** A decision: its cluster, the winning node ids, the incarnations it NACKed, the rings of the
      sessions it marked for an ACK, and the ring of each incarnation it NACKed. */
  datatype Decision = Decision(cluster: nat, winners: set<u32>, nacked: set<nat>, rings: set<RingId>,
                               told: set<(nat, RingId)>)

  /** A vote-info in the log of everything ever sent. */
  datatype Sent = Sent(link: nat, node: u32, cluster: nat, note: Note)

  datatype Net = Net(srv: State, links: seq<Link>, decided: seq<Decision>, latest: seq<Option<nat>>,
                     log: set<Sent>, nextId: nat)

  function NoLink(id: nat): (l: Link) {
    Link(id, 0, [], [], None)
  }

  function Start(): (n: Net) {
    Net(Initial(), seq(MAX_CLIENTS, i requires 0 <= i < MAX_CLIENTS => NoLink(i)), [],
        seq(MAX_CLUSTERS, _ => None), {}, MAX_CLIENTS)
  }

  // ---------------------------------------------------------------- moves

  function ToNote(f: Reply, d: nat): (n: Note)
    requires f.VoteInfo?
  {
    Note(f.seqNo, f.ring, f.vote, d)
  }

  function Push(l: Link, v: seq<Reply>, d: nat): (r: Link)
    requires forall k :: 0 <= k < |v| ==> v[k].VoteInfo?
  {
    l.(sent := l.sent + |v|, down := l.down + seq(|v|, k requires 0 <= k < |v| => ToNote(v[k], d)))
  }

  predicate Fits(n: Net, b: State) {
    && |n.links| == |n.srv.sessions| == |b.sessions|
    && |n.latest| == |n.srv.clusters| == |b.clusters|
    && n.srv.out <= b.out
  }

  predicate DecidedNow(n: Net, b: State) {
    b.decisions != n.srv.decisions
  }

  /** The decision the vote-infos of a step in cluster `c` belong to. */
  function Occasion(n: Net, b: State, c: nat): (d: nat)
    requires c < |n.latest|
  {
    if DecidedNow(n, b) then |n.decided| else if n.latest[c].Some? then n.latest[c].value else 0
  }

  function Record(n: Net, b: State, c: nat): (d: Decision)
    requires Fits(n, b) && c < |n.latest|
  {
    Decision(c, Ids(b.clusters[c].quorate),
             set i | 0 <= i < |b.sessions| && InCluster(b, c, i)
                 && b.sessions[i].poll.ff == SendingNack :: n.links[i].id,
             set i | 0 <= i < |b.sessions| && InCluster(b, c, i)
                 && b.sessions[i].poll.ff == SendingAck :: b.sessions[i].ring,
             set i | 0 <= i < |b.sessions| && InCluster(b, c, i)
                 && b.sessions[i].poll.ff == SendingNack :: (n.links[i].id, b.sessions[i].ring))
  }

  /** The server moved to `b` by a step concerning cluster `c`: its vote-infos enter the channels
      and the log, and a decision, if one was taken, is recorded. */
  function Advance(n: Net, b: State, c: nat): (r: Net)
    requires Fits(n, b) && c < |n.latest|
  {
    var d := Occasion(n, b, c);
    Net(b,
        seq(|n.links|, i requires 0 <= i < |n.links| => Push(n.links[i], NewVotes(n.srv, b, i), d)),
        if DecidedNow(n, b) then n.decided + [Record(n, b, c)] else n.decided,
        seq(|n.latest|, k requires 0 <= k < |n.latest| =>
              if !b.clusters[k].used then None
              else if DecidedNow(n, b) && k == c then Some(|n.decided|)
              else n.latest[k]),
        n.log + (set i, k | 0 <= i < |n.links| && 0 <= k < |NewVotes(n.srv, b, i)| ::
                   Sent(n.links[i].id, b.sessions[i].nodeId, c, ToNote(NewVotes(n.srv, b, i)[k], d))),
        n.nextId)
  }

  // ---------------------------------------------------------------- what a link looks like

  /** The latest vote-info sent on a link, in flight or applied. */
  function LastNote(l: Link): (r: Option<Note>) {
    if l.down != [] then Some(l.down[|l.down| - 1]) else l.held
  }

  function InFlight(l: Link): (k: nat) {
    |l.up| + |l.down|
  }

  /** The unanswered vote-infos carry consecutive sequence numbers ending with the latest. */
  ghost predicate Chain(l: Link, voteSeq: u32) {
    && voteSeq == l.sent % WORD && l.sent >= InFlight(l)
    && (forall k :: 0 <= k < |l.up| ==> l.up[k] == (l.sent - InFlight(l) + 1 + k) % WORD)
    && (forall k :: 0 <= k < |l.down| ==> l.down[k].seqNo == (l.sent - |l.down| + 1 + k) % WORD)
  }

  /** A note is in flight to the client or applied by it. */
  predicate Carries(l: Link, n: Note) {
    n in l.down || l.held == Some(n)
  }

  /** Every note of the link belongs to a decision up to the cluster's latest. */
  ghost predicate NotesUpTo(l: Link, latest: Option<nat>) {
    forall n :: Carries(l, n) ==> latest.Some? && n.decision <= latest.value
  }

  /** The link of an active session with voting fields `p`, inside or outside the quorate
      partition, in a cluster in state `f` whose latest decision is `latest`. */
  ghost predicate VotingLink(p: Poll, quorate: bool, f: FfCluster, latest: Option<nat>, l: Link) {
    && Chain(l, p.voteSeq)
    && NotesUpTo(l, latest)
    && (p.ff != Waiting ==> latest.Some?)
    // the server's idea of the last vote is the last note
    && (LastNote(l).None? ==> p.lastAckNack == VoteUndefined)
    && (LastNote(l).Some? ==> p.lastAckNack == LastNote(l).value.vote)
    // outside the partition: nothing was ever sent, or the NACK of the latest decision was sent last
    && (!quorate && LastNote(l).Some? ==>
          LastNote(l).value.vote == Nack && latest == Some(LastNote(l).value.decision))
    // outside the partition and not being NACKed: everything is answered
    && (!quorate && p.ff != SendingNack ==> InFlight(l) == 0)
    // a reply is still to come from whoever is being NACKed, or ACKed after the release
    && (p.ff == SendingNack ==> InFlight(l) > 0)
    && (p.ff == SendingAck && f == SendingAcks ==> InFlight(l) > 0)
  }

  predicate Idling(l: Link) {
    l.down == [] && l.up == [] && l.held == None && l.sent == 0
  }

  ghost predicate LinkOk(n: Net, i: nat)
    requires i < |n.links| && i < |n.srv.sessions| && |n.latest| == |n.srv.clusters|
  {
    var s := n.srv.sessions[i];
    if s.phase != Active then Idling(n.links[i])
    else
      && 0 <= s.cluster < |n.srv.clusters|
      && var cl := n.srv.clusters[s.cluster];
         VotingLink(s.poll, Has(cl.quorate, s.nodeId), cl.state, n.latest[s.cluster], n.links[i])
  }

  // ---------------------------------------------------------------- what the history looks like

  /** Everything a link carries is in the log under its incarnation. */
  ghost predicate Logged(n: Net, i: nat)
    requires i < |n.links| && i < |n.srv.sessions|
  {
    forall x :: Carries(n.links[i], x) && n.srv.sessions[i].cluster >= 0 ==>
      Sent(n.links[i].id, n.srv.sessions[i].nodeId, n.srv.sessions[i].cluster, x) in n.log
  }

  ghost predicate LatestOk(n: Net, c: nat)
    requires c < |n.latest| && |n.latest| == |n.srv.clusters|
  {
    && (!n.srv.clusters[c].used ==> n.latest[c] == None)
    && (n.latest[c].Some? ==>
          && n.latest[c].value < |n.decided|
          && n.decided[n.latest[c].value].cluster == c
          && n.decided[n.latest[c].value].winners == Ids(n.srv.clusters[c].quorate))
  }

  /** No client outside the winners of `d` still applies, or is about to apply, an ACK of `d` or of
      an earlier decision. */
  ghost predicate Sealed(n: Net, c: nat, d: nat)
    requires |n.links| == |n.srv.sessions| && d < |n.decided|
  {
    forall p :: InCluster(n.srv, c, p) && n.srv.sessions[p].nodeId !in n.decided[d].winners ==>
      NoAckUpTo(n.links[p], d)
  }

  predicate NoAckUpTo(l: Link, d: nat) {
    && (forall k :: 0 <= k < |l.down| ==> !(l.down[k].vote == Ack && l.down[k].decision <= d))
    && (l.held.Some? ==> !(l.held.value.vote == Ack && l.held.value.decision <= d))
  }

  /** A logged vote-info belongs to a recorded decision. An ACK goes to a winner, carries the
      decision's ring and is only sent once the decision is sealed; a NACK carries the ring its
      client had at the decision. */
  ghost predicate EntryOk(n: Net, x: Sent)
    requires |n.links| == |n.srv.sessions|
  {
    var d := x.note.decision;
    && d < |n.decided| && n.decided[d].cluster == x.cluster && x.cluster < |n.latest|
    && (n.latest[x.cluster].Some? ==> d <= n.latest[x.cluster].value)
    && (x.note.vote == Ack ==>
          x.node in n.decided[d].winners && x.note.ring in n.decided[d].rings && Sealed(n, x.cluster, d))
    && (x.note.vote == Nack ==> (x.link, x.note.ring) in n.decided[d].told)
  }

  ghost predicate OneRing(d: Decision) {
    forall r, r' :: r in d.rings && r' in d.rings ==> r == r'
  }

  /** Nobody is NACKed with two rings. */
  ghost predicate OneTold(d: Decision) {
    forall p, q :: p in d.told && q in d.told && p.0 == q.0 ==> p.1 == q.1
  }

  /** Session `i`, if it still awaits the ACK of its cluster's standing decision, has its ring. */
  ghost predicate Awaits(n: Net, i: nat)
    requires i < |n.srv.sessions| && |n.latest| == |n.srv.clusters|
  {
    var s := n.srv.sessions[i];
    s.phase == Active && 0 <= s.cluster < |n.latest| && s.poll.ff == SendingAck && !Unsettled(n.srv, s.cluster)
    && n.latest[s.cluster].Some? && n.latest[s.cluster].value < |n.decided|
    ==> s.ring in n.decided[n.latest[s.cluster].value].rings
  }

  /** The rings of a decision are one ring, and it is the ring of whoever still awaits its ACK. */
  ghost predicate RingsOk(n: Net)
    requires |n.latest| == |n.srv.clusters|
  {
    && (forall d :: 0 <= d < |n.decided| ==> OneRing(n.decided[d]) && OneTold(n.decided[d]))
    && (forall i :: 0 <= i < |n.srv.sessions| ==> Awaits(n, i))
  }

  /** No decision NACKed an incarnation that has not taken part in any. */
  ghost predicate Untouched(n: Net, i: nat)
    requires i < |n.links| && i < |n.srv.sessions|
  {
    n.srv.sessions[i].phase != Active ==>
      forall d :: 0 <= d < |n.decided| ==> n.links[i].id !in n.decided[d].nacked
  }

  ghost predicate OldIds(d: Decision, nextId: nat) {
    forall x :: x in d.nacked ==> x < nextId
  }

  predicate OtherIds(n: Net, i: nat, j: nat)
    requires i < |n.links| && j < |n.links|
  {
    i != j ==> n.links[i].id != n.links[j].id
  }

  /** Incarnations are distinct, and only sessions that took part in a decision are NACKed by it. */
  ghost predicate IdsOk(n: Net, closed: int)
    requires |n.links| == |n.srv.sessions|
  {
    && (forall i :: 0 <= i < |n.links| ==> n.links[i].id < n.nextId)
    && (forall i, j :: 0 <= i < |n.links| && 0 <= j < |n.links| ==> OtherIds(n, i, j))
    && (forall d :: 0 <= d < |n.decided| ==> OldIds(n.decided[d], n.nextId))
    && (forall i :: 0 <= i < |n.links| && i != closed ==> Untouched(n, i))
  }

  /** Session `i`, if the latest decision of its cluster NACKed it, is outside the partition and was
      sent something. */
  ghost predicate NackedAt(n: Net, i: nat)
    requires i < |n.links| && i < |n.srv.sessions| && |n.latest| == |n.srv.clusters|
  {
    var s := n.srv.sessions[i];
    s.phase == Active && 0 <= s.cluster < |n.latest|
    && n.latest[s.cluster].Some? && n.latest[s.cluster].value < |n.decided|
    && n.links[i].id in n.decided[n.latest[s.cluster].value].nacked
    ==> !Has(n.srv.clusters[s.cluster].quorate, s.nodeId) && LastNote(n.links[i]).Some?
  }

  ghost predicate NackedOk(n: Net)
    requires |n.links| == |n.srv.sessions| && |n.latest| == |n.srv.clusters|
  {
    forall i :: 0 <= i < |n.links| ==> NackedAt(n, i)
  }

  /** The invariant of the network, except for the link of slot `closed`, whose session has just
      ended. */
  ghost predicate NetInvBut(n: Net, closed: int) {
    && |n.links| == |n.srv.sessions| && |n.latest| == |n.srv.clusters|
    && Inv(n.srv, true) && Indexed(n.srv)
    && (forall i :: 0 <= i < |n.links| && i != closed ==> LinkOk(n, i) && Logged(n, i))
    && (forall c :: 0 <= c < |n.latest| ==> LatestOk(n, c))
    && (forall x :: x in n.log ==> EntryOk(n, x))
    && RingsOk(n) && IdsOk(n, closed) && NackedOk(n)
  }

  ghost predicate NetInv(n: Net) {
    NetInvBut(n, -1)
  }

  /** The client notices the end of its session: both channels are gone and so is its vote. */
  function Hangup(n: Net, slot: nat): (r: Net)
    requires slot < |n.links|
  {
    n.(links := n.links[slot := NoLink(n.nextId)], nextId := n.nextId + 1)
  }

  lemma StartInv()
    ensures NetInv(Start())
  {
    Runs.InitialInv();
  }

  // ---------------------------------------------------------------- one link at a time

  lemma SuccMod(x: nat)
    ensures Succ32(x % WORD) == (x + 1) % WORD
  {
  }

  /** Sending one more vote-info keeps the chain. */
  lemma ChainPush(l: Link, voteSeq: u32, f: Reply, d: nat)
    requires Chain(l, voteSeq) && f.VoteInfo? && f.seqNo == Succ32(voteSeq)
    ensures Chain(Push(l, [f], d), Succ32(voteSeq))
    ensures Push(l, [f], d).down == l.down + [ToNote(f, d)]
    ensures LastNote(Push(l, [f], d)) == Some(ToNote(f, d))
    ensures InFlight(Push(l, [f], d)) == InFlight(l) + 1
    ensures forall n :: Carries(Push(l, [f], d), n) <==> Carries(l, n) || n == ToNote(f, d)
  {
    SuccMod(l.sent);
    var l' := Push(l, [f], d);
    assert l'.down == l.down + [ToNote(f, d)];
  }

  lemma PushNothing(l: Link, d: nat)
    ensures Push(l, [], d) == l
  {
    assert l.down + [] == l.down;
  }

  /** A vote-info of the latest decision: a NACK to an outsider, an ACK to an insider. */
  lemma VotedLink(p: Poll, p': Poll, quorate: bool, f: FfCluster, before: Option<nat>, l: Link,
                  frame: Reply, d: nat, f0: FfCluster, q0: bool)
    requires VotingLink(p, q0, f0, before, l)
    requires frame.VoteInfo? && frame.seqNo == Succ32(p.voteSeq) && p'.voteSeq == Succ32(p.voteSeq)
    requires p'.lastAckNack == frame.vote == (if quorate then Ack else Nack)
    requires p'.ff == (if quorate then SendingAck else SendingNack)
    requires before.Some? ==> before.value <= d
    ensures VotingLink(p', quorate, f, Some(d), Push(l, [frame], d))
  {
    ChainPush(l, p.voteSeq, frame, d);
  }

  /** A winner whose ACK is deferred: nothing is sent, the decision is newer. */
  lemma DeferredLink(p: Poll, p': Poll, q0: bool, f0: FfCluster, before: Option<nat>, l: Link, d: nat)
    requires VotingLink(p, q0, f0, before, l)
    requires p'.voteSeq == p.voteSeq && p'.lastAckNack == p.lastAckNack && p'.ff == SendingAck
    requires before.Some? ==> before.value <= d
    ensures VotingLink(p', true, SendingNacks, Some(d), l)
  {
  }

  /** Applying the oldest vote-info in flight. */
  function Applied(l: Link): (r: Link)
    requires l.down != []
  {
    l.(down := l.down[1..], up := l.up + [l.down[0].seqNo], held := Some(l.down[0]))
  }

  lemma AppliedLink(p: Poll, quorate: bool, f: FfCluster, latest: Option<nat>, l: Link)
    requires VotingLink(p, quorate, f, latest, l) && l.down != []
    ensures VotingLink(p, quorate, f, latest, Applied(l))
    ensures forall n :: Carries(Applied(l), n) ==> Carries(l, n)
    ensures LastNote(Applied(l)) == LastNote(l)
  {
    var l' := Applied(l);
    assert l.down == [l.down[0]] + l'.down;
  }

  /** The server takes the oldest reply off the link. */
  function Taken(l: Link): (r: Link)
    requires l.up != []
  {
    l.(up := l.up[1..])
  }

  /** With at most 2^32 vote-infos unanswered, the oldest reply has the latest sequence number
      exactly when it is the only one outstanding. */
  lemma ReplyMatches(l: Link, voteSeq: u32)
    requires Chain(l, voteSeq) && l.up != [] && InFlight(l) <= WORD
    ensures l.up[0] == voteSeq <==> InFlight(l) == 1
  {
    var k := InFlight(l) - 1;
    assert l.up[0] == (l.sent - k) % WORD;
    if l.up[0] == voteSeq {
      assert (l.sent - k) % WORD == l.sent % WORD;
    }
  }

  /** A stale reply changes nothing but the channel. */
  lemma StaleLink(p: Poll, quorate: bool, f: FfCluster, latest: Option<nat>, l: Link)
    requires VotingLink(p, quorate, f, latest, l) && l.up != [] && InFlight(l) > 1
    ensures VotingLink(p, quorate, f, latest, Taken(l))
  {
  }

  /** The reply to the latest vote-info settles the session. */
  lemma SettledLink(p: Poll, p': Poll, quorate: bool, f: FfCluster, f': FfCluster, latest: Option<nat>, l: Link)
    requires VotingLink(p, quorate, f, latest, l) && l.up != [] && InFlight(l) == 1
    requires p'.ff == Waiting && p'.voteSeq == p.voteSeq && p'.lastAckNack == p.lastAckNack
    ensures VotingLink(p', quorate, f', latest, Taken(l))
  {
  }

  /** A settled outsider applies no ACK and none is on its way. */
  lemma OutsiderSealed(p: Poll, f: FfCluster, latest: Option<nat>, l: Link, d: nat)
    requires VotingLink(p, false, f, latest, l) && p.ff != SendingNack
    ensures NoAckUpTo(l, d)
  {
  }
}
