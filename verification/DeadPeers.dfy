/** What every run makes of a peer: its stream reassembled, its silence measured, and the clock
    closing exactly the sessions that were silent too long. */
module DeadPeers {
  import opened Wire
  import opened ServerState
  import opened Protocol
  import opened Events
  import opened Invariants
  import opened Runs
  import opened Framing
  import opened Timers

  // ---------------------------------------------------------------- the clock

  /** The slots from `i` on that are past their deadline, in order. */
  function ExpiredFrom(h: Host, now: nat, i: nat): (r: seq<nat>)
    requires i <= |h.core.sessions| == |h.closing|
    decreases |h.core.sessions| - i
  {
    if i == |h.core.sessions| then []
    else (if Expired(h, now, i) then [i] else []) + ExpiredFrom(h, now, i + 1)
  }

  /** Slot `i` neither closed nor touched, as far as its peer can tell from timing and framing. */
  predicate Undisturbed(h: Host, r: Host, i: nat)
    requires i < |h.core.sessions| && i < |r.core.sessions| && i < |h.rx| && i < |r.rx|
    requires i < |h.closing| && i < |r.closing|
  {
    SameTimer(h.core.sessions[i], r.core.sessions[i]) && r.rx[i] == h.rx[i] && r.closing[i] == h.closing[i]
  }

  ghost predicate UndisturbedBut(h: Host, r: Host, slot: int) {
    && Ready(h) && Ready(r) && |r.core.sessions| == |h.core.sessions|
    && forall i :: 0 <= i < |h.core.sessions| && i != slot ==> Undisturbed(h, r, i)
  }

  /** Disconnecting an idle server's session closes it at once and disturbs no other. */
  lemma DisconnectEffect(h: Host, slot: nat, maxRx: u32)
    requires Idle(h, maxRx) && OpenSlot(h, slot)
    ensures var r := Disconnect(h, slot);
            && UndisturbedBut(h, r, slot) && !OpenSlot(r, slot)
            && Closes(r.core.out) == Closes(h.core.out) + [slot]
  {
    assert Resting(h, maxRx, slot);
    var h1 := h.(closing := h.closing[slot := true], pending := [slot], processing := true);
    DrainOne(h1, slot);
    EvictDisturbs(h, slot, Disconnect(h, slot));
  }

  lemma EvictDisturbs(h: Host, slot: nat, r: Host)
    requires Ready(h) && Open(h.core, slot) && Ready(r)
    requires r.core == Evict(h.core, slot) || r.core == CloseSlot(h.core, slot)
    requires r.rx == h.rx[slot := []] && |r.closing| == |h.closing|
    requires forall i :: 0 <= i < |h.closing| && i != slot ==> r.closing[i] == h.closing[i]
    ensures UndisturbedBut(h, r, slot)
  {
    forall i | 0 <= i < |h.core.sessions| && i != slot
      ensures Undisturbed(h, r, i)
    {
      assert VoteFieldsOnly(h.core.sessions[i], r.core.sessions[i]);
    }
  }

  lemma {:induction false} ExpiredUndisturbed(h: Host, r: Host, now: nat, i: nat)
    requires |h.core.sessions| == |h.closing| == |h.rx| == |r.core.sessions| == |r.closing| == |r.rx|
    requires i <= |h.core.sessions|
    requires forall k :: i <= k < |h.core.sessions| ==> Undisturbed(h, r, k)
    ensures ExpiredFrom(r, now, i) == ExpiredFrom(h, now, i)
    decreases |h.core.sessions| - i
  {
    if i < |h.core.sessions| {
      assert Undisturbed(h, r, i);
      ExpiredUndisturbed(h, r, now, i + 1);
    }
  }

  /** From slot `i` on, exactly the sessions past their deadline in `h` were closed, in slot order,
      each once; every other session kept its timer and its buffer. */
  ghost predicate Ticked(h: Host, r: Host, now: nat, i: nat) {
    && Ready(h) && Ready(r) && i <= |h.core.sessions| == |r.core.sessions|
    && Closes(r.core.out) == Closes(h.core.out) + ExpiredFrom(h, now, i)
    && forall j :: 0 <= j < |h.core.sessions| ==> TickedAt(h, r, now, i, j)
  }

  predicate TickedAt(h: Host, r: Host, now: nat, i: nat, j: nat)
    requires j < |h.core.sessions| && j < |r.core.sessions| && j < |h.rx| && j < |r.rx|
    requires j < |h.closing| && j < |r.closing|
  {
    if i <= j && Expired(h, now, j) then !OpenSlot(r, j) else Undisturbed(h, r, j)
  }

  lemma {:induction false} TickExact(h: Host, now: nat, i: nat, maxRx: u32)
    requires Idle(h, maxRx) && i <= |h.core.sessions|
    ensures Ticked(h, TickFrom(h, now, i), now, i)
    decreases |h.core.sessions| - i
  {
    if i < |h.core.sessions| {
      if Expired(h, now, i) {
        DisconnectEffect(h, i, maxRx);
        DisconnectIdle(h, i, maxRx);
        TickExact(Disconnect(h, i), now, i + 1, maxRx);
        TickClosed(h, Disconnect(h, i), TickFrom(h, now, i), now, i);
      } else {
        TickExact(h, now, i + 1, maxRx);
        TickPassed(h, TickFrom(h, now, i), now, i);
      }
    }
  }

  lemma TickPassed(h: Host, r: Host, now: nat, i: nat)
    requires Ready(h) && i < |h.core.sessions| && !Expired(h, now, i) && Ticked(h, r, now, i + 1)
    ensures Ticked(h, r, now, i)
  {
    assert ExpiredFrom(h, now, i) == ExpiredFrom(h, now, i + 1);
    forall j | 0 <= j < |h.core.sessions|
      ensures TickedAt(h, r, now, i, j)
    {
      assert TickedAt(h, r, now, i + 1, j);
    }
  }

  lemma TickClosed(h: Host, h1: Host, r: Host, now: nat, i: nat)
    requires UndisturbedBut(h, h1, i) && i < |h.core.sessions| && Expired(h, now, i) && !OpenSlot(h1, i)
    requires Closes(h1.core.out) == Closes(h.core.out) + [i] && Ticked(h1, r, now, i + 1)
    ensures Ticked(h, r, now, i)
  {
    ExpiredUndisturbed(h, h1, now, i + 1);
    assert Closes(h.core.out) + [i] + ExpiredFrom(h, now, i + 1) == Closes(h.core.out) + ExpiredFrom(h, now, i);
    forall j | 0 <= j < |h.core.sessions|
      ensures TickedAt(h, r, now, i, j)
    {
      assert TickedAt(h1, r, now, i + 1, j);
      assert j != i ==> Undisturbed(h, h1, j);
    }
  }

  // ---------------------------------------------------------------- peers

  /** What the peer in a slot did since it connected: all it sent, and when it was last heard. */
  datatype Peer = Peer(bytes: seq<byte>, heard: nat)

  /** The peer in `slot` after one more input. */
  function PeerAfter(p: Peer, h: Host, e: Input, slot: nat): (r: Peer) {
    match e
    case Connect(now) => if FreeSlot(h.core, 0) == Some(slot) then Peer([], now) else p
    case Data(s, bytes, now) => if s == slot then Peer(p.bytes + bytes, now) else p
    case _ => p
  }

  ghost function PeerOf(es: seq<Input>, maxRx: u32, slot: nat): (p: Peer) {
    if es == [] then Peer([], 0)
    else PeerAfter(PeerOf(es[..|es| - 1], maxRx, slot), Run(es[..|es| - 1], maxRx), es[|es| - 1], slot)
  }

  /** An open session has buffered exactly the unfinished end of its faultless stream, and its
      deadline is counted from when the peer was last heard. */
  predicate PeerOk(h: Host, maxRx: u32, slot: nat, p: Peer) {
    OpenSlot(h, slot) && slot < |h.rx| ==>
      && Split(p.bytes, maxRx).fault.None? && h.rx[slot] == Split(p.bytes, maxRx).rest
      && HeardAt(h.core.sessions[slot], p.heard)
  }

  lemma PeerUndisturbed(h: Host, r: Host, maxRx: u32, slot: nat, p: Peer)
    requires Ready(h) && Ready(r) && slot < |h.core.sessions| == |r.core.sessions|
    requires PeerOk(h, maxRx, slot, p) && Undisturbed(h, r, slot)
    ensures PeerOk(r, maxRx, slot, p)
  {
  }

  lemma DataDisturbs(h: Host, slot: nat, data: seq<byte>, now: nat, maxRx: u32)
    requires Idle(h, maxRx) && Inv(h.core, false) && OpenSlot(h, slot)
    ensures UndisturbedBut(h, OnData(h, slot, data, now, maxRx), slot)
  {
    var c := Split(h.rx[slot] + data, maxRx);
    DataEffect(h, slot, data, now, maxRx);
    OutcomeKeepsTime(h.core, slot, c, now, maxRx);
    FedDisturbs(h, slot, c, now, maxRx);
  }

  lemma FedDisturbs(h: Host, slot: nat, c: Cut, now: nat, maxRx: u32)
    requires Ready(h) && OpenSlot(h, slot) && AllWhole(Decodes, c.frames, maxRx)
    requires var st := Outcome(Renewed(h.core, slot, now), slot, c, now, maxRx);
             forall i :: 0 <= i < |h.core.sessions| && i != slot ==> SameTimer(h.core.sessions[i], st.sessions[i])
    ensures UndisturbedBut(h, Fed(h, slot, c, now, maxRx), slot)
  {
    var st := Outcome(Renewed(h.core, slot, now), slot, c, now, maxRx);
    forall i | 0 <= i < |h.core.sessions| && i != slot
      ensures Undisturbed(h, Fed(h, slot, c, now, maxRx), i)
    {
      assert SameTimer(h.core.sessions[i], st.sessions[i]);
    }
  }

  /** The bytes of a peer continue its stream. */
  lemma PeerHeard(h: Host, slot: nat, data: seq<byte>, now: nat, maxRx: u32, p: Peer)
    requires Idle(h, maxRx) && Inv(h.core, false) && OpenSlot(h, slot) && PeerOk(h, maxRx, slot, p)
    ensures PeerOk(OnData(h, slot, data, now, maxRx), maxRx, slot, Peer(p.bytes + data, now))
    ensures OpenSlot(OnData(h, slot, data, now, maxRx), slot) <==> Split(p.bytes + data, maxRx).fault.None?
  {
    var c := Split(h.rx[slot] + data, maxRx);
    DataEffect(h, slot, data, now, maxRx);
    OutcomeKeepsTime(h.core, slot, c, now, maxRx);
    SplitAppend(Decodes, p.bytes, data, maxRx);
  }

  lemma PeerStep(h: Host, e: Input, maxRx: u32, slot: nat, p: Peer)
    requires Idle(h, maxRx) && Inv(h.core, false) && slot < |h.core.sessions| && PeerOk(h, maxRx, slot, p)
    ensures PeerOk(Step(h, e, maxRx), maxRx, slot, PeerAfter(p, h, e, slot))
  {
    match e
    case Connect(now) =>
      if FreeSlot(h.core, 0) != Some(slot) {
        PeerUndisturbed(h, OnConnect(h, now), maxRx, slot, p);
      }
    case Data(s, data, now) =>
      if OpenSlot(h, s) {
        if s == slot {
          PeerHeard(h, slot, data, now, maxRx, p);
        } else {
          DataDisturbs(h, s, data, now, maxRx);
          PeerUndisturbed(h, OnData(h, s, data, now, maxRx), maxRx, slot, p);
        }
      }
    case Disconnected(s) => PeerLeft(h, s, maxRx, slot, p);
    case Clock(now) => PeerTicked(h, now, maxRx, slot, p);
  }

  lemma PeerLeft(h: Host, s: int, maxRx: u32, slot: nat, p: Peer)
    requires Idle(h, maxRx) && slot < |h.core.sessions| && PeerOk(h, maxRx, slot, p)
    ensures PeerOk(OnDisconnected(h, s), maxRx, slot, p)
  {
    if OpenSlot(h, s) && s != slot {
      EvictDisturbs(h, s, OnDisconnected(h, s));
      PeerUndisturbed(h, OnDisconnected(h, s), maxRx, slot, p);
    }
  }

  lemma PeerTicked(h: Host, now: nat, maxRx: u32, slot: nat, p: Peer)
    requires Idle(h, maxRx) && slot < |h.core.sessions| && PeerOk(h, maxRx, slot, p)
    ensures PeerOk(Tick(h, now), maxRx, slot, p)
  {
    TickExact(h, now, 0, maxRx);
    assert TickedAt(h, Tick(h, now), now, 0, slot);
  }

  /** Over every run: an open session's stream is reassembled without loss, and its deadline is its
      allowance after it was last heard, across renegotiated heartbeats, rejected INITs and the
      closing of other sessions. */
  lemma {:induction false} PeerExact(es: seq<Input>, maxRx: u32, slot: nat)
    requires slot < MAX_CLIENTS
    ensures PeerOk(Run(es, maxRx), maxRx, slot, PeerOf(es, maxRx, slot))
  {
    if es != [] {
      var es0 := es[..|es| - 1];
      PeerExact(es0, maxRx, slot);
      RunInv(es0, maxRx);
      PeerStep(Run(es0, maxRx), es[|es| - 1], maxRx, slot, PeerOf(es0, maxRx, slot));
    }
  }

  /** After every run, a tick closes exactly the sessions whose peers have been silent for their
      allowance. */
  lemma SilenceCloses(es: seq<Input>, maxRx: u32, now: nat)
    ensures var h := Run(es, maxRx);
            && Ticked(h, Tick(h, now), now, 0)
            && forall slot :: 0 <= slot < MAX_CLIENTS && OpenSlot(h, slot) ==>
                 (Expired(h, now, slot) <==> now >= PeerOf(es, maxRx, slot).heard + Allowance(h.core.sessions[slot]))
  {
    var h := Run(es, maxRx);
    RunInv(es, maxRx);
    TickExact(h, now, 0, maxRx);
    forall slot | 0 <= slot < MAX_CLIENTS && OpenSlot(h, slot)
      ensures Expired(h, now, slot) <==> now >= PeerOf(es, maxRx, slot).heard + Allowance(h.core.sessions[slot])
    {
      PeerExact(es, maxRx, slot);
      assert SessionOk(h.core.sessions[slot]) && Resting(h, maxRx, slot);
    }
  }

  /** After every run, received bytes close their own session, and no other, exactly when they put
      a fault into everything the peer has sent. */
  lemma FaultCloses(es: seq<Input>, maxRx: u32, slot: nat, data: seq<byte>, now: nat)
    requires slot < MAX_CLIENTS && OpenSlot(Run(es, maxRx), slot)
    ensures var h := Run(es, maxRx);
            var r := OnData(h, slot, data, now, maxRx);
            var fault := Split(PeerOf(es, maxRx, slot).bytes + data, maxRx).fault;
            && (OpenSlot(r, slot) <==> fault.None?)
            && Closes(r.core.out) == Closes(h.core.out) + (if fault.Some? then [slot] else [])
  {
    var h := Run(es, maxRx);
    var p := PeerOf(es, maxRx, slot);
    RunInv(es, maxRx);
    PeerExact(es, maxRx, slot);
    PeerHeard(h, slot, data, now, maxRx, p);
    DataEffect(h, slot, data, now, maxRx);
    SplitAppend(Decodes, p.bytes, data, maxRx);
  }
}
