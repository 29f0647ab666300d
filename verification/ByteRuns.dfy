/** Runs of the server on bytes whose peers answer their vote-infos in order are runs of the network,
    so what holds of the network holds of them. */
module ByteRuns {
  import opened Wire
  import opened Msg
  import opened ServerState
  import opened Protocol
  import opened Messages
  import opened Effects
  import Runs
  import opened Network
  import opened NetworkSteps
  import opened NetworkRuns
  import opened Bridge

  // ---------------------------------------------------------------- unanswered vote-infos

  /** Per slot, the numbers of the vote-infos its peer has not answered, oldest first. */
  type Ledger = seq<seq<u32>>

  function Numbers(v: seq<Reply>): (r: seq<u32>)
    requires forall k :: 0 <= k < |v| ==> v[k].VoteInfo?
  {
    seq(|v|, k requires 0 <= k < |v| => v[k].seqNo)
  }

  /** The vote-infos sent between `a` and `b` are to be answered. */
  function Noted(a: State, b: State, owed: Ledger): (r: Ledger)
    requires a.out <= b.out
  {
    seq(|owed|, i requires 0 <= i < |owed| => owed[i] + Numbers(NewVotes(a, b, i)))
  }

  /** The oldest entry of a slot is answered. */
  function Struck(owed: Ledger, slot: nat): (r: Ledger)
    requires slot < |owed|
  {
    if owed[slot] == [] then owed else owed[slot := owed[slot][1..]]
  }

  ghost function LedgerAfter(st: State, owed: Ledger, mv: Move, maxRx: u32): (r: Ledger)
    requires Indexed(st) && Concerns(st, mv) && |owed| == |st.sessions|
    ensures |r| == |owed|
  {
    var b := Served(st, mv, maxRx);
    if mv.Reply? then Noted(st, b, Struck(owed, mv.slot))
    else if mv.End? then Noted(st, b, owed)[mv.slot := []]
    else Noted(st, b, owed)
  }

  /** What the peer does in a move keeps to the protocol: a vote-info reply answers the oldest
      unanswered vote-info, and an INIT on an active session repeats its node id and ring. */
  predicate InOrder(st: State, owed: Ledger, mv: Move)
    requires Concerns(st, mv) && |owed| == |st.sessions|
  {
    match mv
    case Deliver(slot, t, m, _, _) => t != VOTE_INFO_REPLY && CleanMsg(st.sessions[slot], t, m)
    case Reply(slot, m, _, _) => 0 < |owed[slot]| <= WORD && m.seqNumberSet && m.seqNumber == owed[slot][0]
    case Apply(_) => false
    case _ => true
  }

  ghost predicate AllInOrder(st: State, owed: Ledger, ms: seq<Move>, maxRx: u32)
    decreases |ms|
  {
    ms != [] ==>
      && Indexed(st) && Concerns(st, ms[0]) && |owed| == |st.sessions| && InOrder(st, owed, ms[0])
      && AllInOrder(Served(st, ms[0], maxRx), LedgerAfter(st, owed, ms[0], maxRx), ms[1..], maxRx)
  }

  ghost function LedgerThrough(st: State, owed: Ledger, ms: seq<Move>, maxRx: u32): (r: Ledger)
    ensures |r| == |owed|
    decreases |ms|
  {
    if ms == [] || !Indexed(st) || !Concerns(st, ms[0]) || |owed| != |st.sessions| then owed
    else LedgerThrough(Served(st, ms[0], maxRx), LedgerAfter(st, owed, ms[0], maxRx), ms[1..], maxRx)
  }

  /** The unanswered vote-infos after a run. */
  ghost function LedgerOf(es: seq<Runs.Input>, maxRx: u32): (r: Ledger)
    ensures |r| == MAX_CLIENTS
  {
    if es == [] then seq(MAX_CLIENTS, _ => [])
    else
      var h := Runs.Run(es[..|es| - 1], maxRx);
      LedgerThrough(h.core, LedgerOf(es[..|es| - 1], maxRx), MovesOf(h, es[|es| - 1], maxRx), maxRx)
  }

  /** In every frame of the run the peers keep to the protocol. */
  ghost predicate DutifulRun(es: seq<Runs.Input>, maxRx: u32) {
    es != [] ==>
      && DutifulRun(es[..|es| - 1], maxRx)
      && var h := Runs.Run(es[..|es| - 1], maxRx);
         AllInOrder(h.core, LedgerOf(es[..|es| - 1], maxRx), MovesOf(h, es[|es| - 1], maxRx), maxRx)
  }

  // ---------------------------------------------------------------- the network behind a run

  function DownNumbers(l: Link): (r: seq<u32>) {
    seq(|l.down|, k requires 0 <= k < |l.down| => l.down[k].seqNo)
  }

  /** Nothing is applied before its answer arrives, and what is on its way is what is unanswered. */
  ghost predicate Tracks(n: Net, owed: Ledger) {
    |owed| == |n.links| && forall i :: 0 <= i < |n.links| ==> TracksAt(n.links[i], owed[i])
  }

  predicate TracksAt(l: Link, owed: seq<u32>) {
    l.up == [] && DownNumbers(l) == owed
  }

  lemma PushTracks(l: Link, v: seq<Reply>, d: nat, owed: seq<u32>)
    requires (forall k :: 0 <= k < |v| ==> v[k].VoteInfo?) && TracksAt(l, owed)
    ensures TracksAt(Push(l, v, d), owed + Numbers(v))
  {
    assert DownNumbers(Push(l, v, d)) == DownNumbers(l) + Numbers(v);
  }

  lemma AdvanceTracks(n: Net, b: State, c: nat, owed: Ledger)
    requires Fits(n, b) && c < |n.latest| && Tracks(n, owed)
    ensures Tracks(Advance(n, b, c), Noted(n.srv, b, owed))
  {
    var r := Advance(n, b, c);
    forall i | 0 <= i < |r.links|
      ensures TracksAt(r.links[i], Noted(n.srv, b, owed)[i])
    {
      PushTracks(n.links[i], NewVotes(n.srv, b, i), Occasion(n, b, c), owed[i]);
    }
  }

  lemma ReachedMore(ms: seq<Move>, n: Net, mv: Move, maxRx: u32)
    requires Reached(ms, n, maxRx) && Shaped(n) && Enabled(n, mv)
    ensures Reached(ms + [mv], Make(n, mv, maxRx), maxRx)
  {
    assert (ms + [mv])[..|ms|] == ms;
    assert Follows(ms + [mv], n, Make(n, mv, maxRx), maxRx);
  }

  /** A move in order is a move of the network, once the client has applied what it answers. */
  lemma Prepared(ms: seq<Move>, n: Net, owed: Ledger, mv: Move, maxRx: u32) returns (ms': seq<Move>, r: Net)
    requires Reached(ms, n, maxRx) && Tracks(n, owed) && Shaped(n)
    requires Concerns(n.srv, mv) && |owed| == |n.srv.sessions| && InOrder(n.srv, owed, mv)
    ensures Reached(ms', r, maxRx) && Shaped(r) && r.srv == n.srv && Enabled(r, mv)
    ensures mv.Reply? ==> r.links[mv.slot].up != [] && Tracks(TakeReply(r, mv.slot), Struck(owed, mv.slot))
    ensures !mv.Reply? ==> r == n
  {
    if mv.Reply? {
      var slot := mv.slot;
      assert TracksAt(n.links[slot], owed[slot]);
      ReachedMore(ms, n, Apply(slot), maxRx);
      ms', r := ms + [Apply(slot)], ClientApplies(n, slot);
      AnsweredTracks(n, owed, slot);
    } else {
      ms', r := ms, n;
    }
  }

  /** Applying the oldest vote-info and taking the reply strikes it off. */
  lemma AnsweredTracks(n: Net, owed: Ledger, slot: nat)
    requires Tracks(n, owed) && slot < |n.links| && owed[slot] != []
    ensures n.links[slot].down != [] && n.links[slot].down[0].seqNo == owed[slot][0]
    ensures var r := ClientApplies(n, slot);
            && r.links[slot].up == [owed[slot][0]] && InFlight(r.links[slot]) == |owed[slot]|
            && Tracks(TakeReply(r, slot), Struck(owed, slot))
  {
    assert TracksAt(n.links[slot], owed[slot]);
    var l := n.links[slot];
    var t := Taken(Applied(l));
    assert DownNumbers(l)[0] == l.down[0].seqNo;
    assert DownNumbers(t) == owed[slot][1..];
    var r := TakeReply(ClientApplies(n, slot), slot);
    forall i | 0 <= i < |r.links|
      ensures TracksAt(r.links[i], Struck(owed, slot)[i])
    {
      assert TracksAt(n.links[i], owed[i]);
      assert r.links[i] == if i == slot then t else n.links[i];
    }
  }

  /** An enabled move other than a reply keeps track of what is unanswered. */
  lemma MadeTracks(n: Net, owed: Ledger, mv: Move, maxRx: u32)
    requires Shaped(n) && Enabled(n, mv) && !mv.Reply? && !mv.Apply? && Tracks(n, owed)
    ensures Tracks(Make(n, mv, maxRx), LedgerAfter(n.srv, owed, mv, maxRx))
  {
    var b := Served(n.srv, mv, maxRx);
    var c := if mv.Connect? then 0 else ClusterOf(n.srv, mv.slot);
    AdvanceTracks(n, b, c, owed);
    if mv.End? {
      HangupTracks(Advance(n, b, c), mv.slot, Noted(n.srv, b, owed));
    }
  }

  lemma HangupTracks(n: Net, slot: nat, owed: Ledger)
    requires slot < |n.links| && Tracks(n, owed)
    ensures Tracks(Hangup(n, slot), owed[slot := []])
  {
    var r := Hangup(n, slot);
    forall i | 0 <= i < |r.links|
      ensures TracksAt(r.links[i], owed[slot := []][i])
    {
      assert TracksAt(n.links[i], owed[i]);
    }
  }

  lemma RepliedTracks(r: Net, owed: Ledger, mv: Move, maxRx: u32)
    requires Shaped(r) && Enabled(r, mv) && mv.Reply? && |owed| == |r.srv.sessions|
    requires Tracks(TakeReply(r, mv.slot), Struck(owed, mv.slot))
    ensures Tracks(Make(r, mv, maxRx), LedgerAfter(r.srv, owed, mv, maxRx))
  {
    AdvanceTracks(TakeReply(r, mv.slot), Served(r.srv, mv, maxRx), ClusterOf(r.srv, mv.slot), Struck(owed, mv.slot));
  }

  lemma MoveReached(ms: seq<Move>, n: Net, owed: Ledger, mv: Move, maxRx: u32) returns (ms': seq<Move>, r: Net)
    requires Reached(ms, n, maxRx) && Tracks(n, owed) && Indexed(n.srv)
    requires Concerns(n.srv, mv) && |owed| == |n.srv.sessions| && InOrder(n.srv, owed, mv)
    ensures Reached(ms', r, maxRx) && r.srv == Served(n.srv, mv, maxRx)
    ensures Tracks(r, LedgerAfter(n.srv, owed, mv, maxRx))
  {
    ReachedInv(ms, n, maxRx);
    var ms1, n1 := Prepared(ms, n, owed, mv, maxRx);
    ReachedMore(ms1, n1, mv, maxRx);
    ms', r := ms1 + [mv], Make(n1, mv, maxRx);
    if mv.Reply? {
      RepliedTracks(n1, owed, mv, maxRx);
    } else {
      MadeTracks(n, owed, mv, maxRx);
    }
  }

  lemma {:induction false} MovesReached(ms: seq<Move>, n: Net, owed: Ledger, mvs: seq<Move>, b: State, maxRx: u32)
    returns (ms': seq<Move>, r: Net)
    requires Reached(ms, n, maxRx) && Tracks(n, owed)
    requires AllInOrder(n.srv, owed, mvs, maxRx) && Serves(n.srv, mvs, b, maxRx)
    ensures Reached(ms', r, maxRx) && r.srv == b && Tracks(r, LedgerThrough(n.srv, owed, mvs, maxRx))
    decreases |mvs|
  {
    if mvs == [] {
      ms', r := ms, n;
    } else {
      var ms1, n1 := MoveReached(ms, n, owed, mvs[0], maxRx);
      ms', r := MovesReached(ms1, n1, LedgerAfter(n.srv, owed, mvs[0], maxRx), mvs[1..], b, maxRx);
    }
  }

  lemma StartTracks()
    ensures Tracks(Start(), seq(MAX_CLIENTS, _ => []))
  {
  }

  /** Behind every run whose peers keep to the protocol there is a run of the network that ends with
      the same server and exactly the unanswered vote-infos in flight. */
  lemma {:induction false} RunReached(es: seq<Runs.Input>, maxRx: u32) returns (ms: seq<Move>, n: Net)
    requires DutifulRun(es, maxRx)
    ensures Reached(ms, n, maxRx) && n.srv == Runs.Run(es, maxRx).core && Tracks(n, LedgerOf(es, maxRx))
  {
    if es == [] {
      StartTracks();
      ms, n := [], Start();
    } else {
      var es0, e := es[..|es| - 1], es[|es| - 1];
      var h := Runs.Run(es0, maxRx);
      var ms0, n0 := RunReached(es0, maxRx);
      Runs.RunInv(es0, maxRx);
      StepIsMoves(h, e, maxRx);
      ms, n := MovesReached(ms0, n0, LedgerOf(es0, maxRx), MovesOf(h, e, maxRx), Runs.Step(h, e, maxRx).core, maxRx);
    }
  }

  // ---------------------------------------------------------------- what the network guarantees

  lemma ServesPrefix(st: State, mvs: seq<Move>, k: nat, r: State, maxRx: u32)
    requires 0 < k <= |mvs| && Indexed(st) && Concerns(st, mvs[0])
    requires Serves(Served(st, mvs[0], maxRx), mvs[1..][..k - 1], r, maxRx)
    ensures Serves(st, mvs[..k], r, maxRx)
  {
    assert mvs[..k][1..] == mvs[1..][..k - 1];
  }

  /** The network just before the `k`-th of the moves `mvs`. */
  lemma {:induction false} NetBefore(ms: seq<Move>, n: Net, owed: Ledger, mvs: seq<Move>, k: nat, maxRx: u32)
    returns (ms': seq<Move>, r: Net)
    requires Reached(ms, n, maxRx) && Tracks(n, owed) && AllInOrder(n.srv, owed, mvs, maxRx) && k < |mvs|
    ensures Reached(ms', r, maxRx) && Shaped(r) && Enabled(r, mvs[k]) && Serves(n.srv, mvs[..k], r.srv, maxRx)
    decreases k
  {
    if k == 0 {
      ReachedInv(ms, n, maxRx);
      ms', r := Prepared(ms, n, owed, mvs[0], maxRx);
    } else {
      var ms1, n1 := MoveReached(ms, n, owed, mvs[0], maxRx);
      ms', r := NetBefore(ms1, n1, LedgerAfter(n.srv, owed, mvs[0], maxRx), mvs[1..], k - 1, maxRx);
      ServesPrefix(n.srv, mvs, k, r.srv, maxRx);
    }
  }

  /** Every ACK among the vote-infos of a move follows the NACKs of its decision. */
  ghost predicate AcksFollowNacks(n: Net, r: Net)
    requires |r.links| == |r.srv.sessions|
  {
    forall x :: x in r.log && x !in n.log && x.note.vote == Ack ==>
      x.note.decision < |r.decided| && NacksApplied(r, x.cluster, x.note.decision)
  }

  /** NACK before ACK, down to the bytes: whenever a frame, a fault, a disconnect or an expiry within
      input `e` makes the server emit an ACK, every connected client NACKed by the same decision has
      applied that NACK and the server has its answer. */
  lemma BytesNackBeforeAck(es: seq<Runs.Input>, e: Runs.Input, k: nat, maxRx: u32) returns (ms: seq<Move>, n: Net)
    requires DutifulRun(es + [e], maxRx) && k < |MovesOf(Runs.Run(es, maxRx), e, maxRx)|
    ensures var h := Runs.Run(es, maxRx);
            var mv := MovesOf(h, e, maxRx)[k];
            && Reached(ms, n, maxRx) && Shaped(n) && Enabled(n, mv)
            && Serves(h.core, MovesOf(h, e, maxRx)[..k], n.srv, maxRx)
            && AcksFollowNacks(n, Make(n, mv, maxRx))
  {
    assert (es + [e])[..|es|] == es;
    var h := Runs.Run(es, maxRx);
    var mvs := MovesOf(h, e, maxRx);
    var ms0, n0 := RunReached(es, maxRx);
    ms, n := NetBefore(ms0, n0, LedgerOf(es, maxRx), mvs, k, maxRx);
    forall x | x in Make(n, mvs[k], maxRx).log && x !in n.log && x.note.vote == Ack
      ensures var r := Make(n, mvs[k], maxRx);
              x.note.decision < |r.decided| && NacksApplied(r, x.cluster, x.note.decision)
    {
      NackBeforeAck(ms, n, mvs[k], maxRx, x);
    }
  }

  /** Of two clients of cluster `c` that apply an ACK at the same time, both are winners of the
      decision behind the newer one. */
  ghost predicate OneSided(n: Net, c: nat, p: nat, q: nat) {
    && InCluster(n.srv, c, p) && InCluster(n.srv, c, q) && p < |n.links| && q < |n.links|
    && HoldsAck(n.links[p]) && HoldsAck(n.links[q])
    && n.links[p].held.value.decision <= n.links[q].held.value.decision
    ==> var d := n.links[q].held.value.decision;
        && d < |n.decided| && n.decided[d].cluster == c
        && n.srv.sessions[p].nodeId in n.decided[d].winners && n.srv.sessions[q].nodeId in n.decided[d].winners
  }

  /** The clients in the slots `who` apply one more vote-info each, in that order. */
  ghost predicate CatchUp(n: Net, who: seq<nat>, r: Net)
    decreases |who|
  {
    if who == [] then r == n
    else who[0] < |n.links| && n.links[who[0]].down != [] && CatchUp(ClientApplies(n, who[0]), who[1..], r)
  }

  lemma {:induction false} CaughtUp(ms: seq<Move>, n: Net, who: seq<nat>, r: Net, maxRx: u32) returns (ms': seq<Move>)
    requires Reached(ms, n, maxRx) && CatchUp(n, who, r)
    ensures Reached(ms', r, maxRx)
    decreases |who|
  {
    if who == [] {
      ms' := ms;
    } else {
      ReachedInv(ms, n, maxRx);
      ReachedMore(ms, n, Apply(who[0]), maxRx);
      ms' := CaughtUp(ms + [Apply(who[0])], ClientApplies(n, who[0]), who[1..], r, maxRx);
    }
  }

  /** Both sides ACKed is unreachable, down to the bytes: after every run whose peers keep to the
      protocol, however many of their vote-infos the clients have applied by then. */
  lemma BytesOneSide(es: seq<Runs.Input>, maxRx: u32) returns (ms: seq<Move>, n: Net)
    requires DutifulRun(es, maxRx)
    ensures Reached(ms, n, maxRx) && n.srv == Runs.Run(es, maxRx).core && Tracks(n, LedgerOf(es, maxRx))
    ensures forall who, r, c, p, q :: CatchUp(n, who, r) ==> OneSided(r, c, p, q)
  {
    ms, n := RunReached(es, maxRx);
    forall who, r, c, p, q | CatchUp(n, who, r)
      ensures OneSided(r, c, p, q)
    {
      var ms' := CaughtUp(ms, n, who, r, maxRx);
      ReachedOneSided(ms', r, maxRx, c, p, q);
    }
  }

  lemma ReachedOneSided(ms: seq<Move>, n: Net, maxRx: u32, c: nat, p: nat, q: nat)
    requires Reached(ms, n, maxRx)
    ensures OneSided(n, c, p, q)
  {
    if InCluster(n.srv, c, p) && InCluster(n.srv, c, q) && p < |n.links| && q < |n.links|
       && HoldsAck(n.links[p]) && HoldsAck(n.links[q])
       && n.links[p].held.value.decision <= n.links[q].held.value.decision {
      OneSideHoldsAcks(ms, n, maxRx, c, p, q);
    }
  }
}
