/** The entry points of the server: connections, received bytes, disconnects and the clock, with
    stream reassembly and deferred closes. */
module Events {
  import opened Wire
  import opened Msg
  import opened Codec
  import T = Tlv
  import opened ServerState
  import opened Votes
  import opened Protocol

  // ---------------------------------------------------------------- leaving and closing

  /** A session leaves its cluster: the algorithm runs once more without it, and the cluster record
      of the last member is cleared. */
  ghost function Leave(st: State, slot: nat): (r: State)
    requires Open(st, slot) && Indexed(st)
  {
    var s := st.sessions[slot];
    if s.phase != Active then st
    else
      FfsplitVoteStep(st, StoredTrigger(st, slot, true));
      var st1 := FfsplitDo(st, StoredTrigger(st, slot, true)).0;
      var cl := st1.clusters[s.cluster];
      var cl' := if cl.members - 1 <= 0 then NoCluster else cl.(members := cl.members - 1);
      SetSession(SetCluster(st1, s.cluster, cl'), slot, st1.sessions[slot].(cluster := -1))
  }

  /** The slot is free again and every other session kept all but its voting fields. */
  ghost predicate CloseFrame(a: State, b: State, slot: nat) {
    && slot < |a.sessions| && |b.sessions| == |a.sessions| && |b.clusters| == |a.clusters|
    && b.sessions[slot] == FreshSession
    && (forall i :: 0 <= i < |a.sessions| && i != slot ==> VoteFieldsOnly(a.sessions[i], b.sessions[i]))
    && a.out <= b.out && Closes(b.out) == Closes(a.out)
    && Indexed(b)
  }

  ghost function CloseSlot(st: State, slot: nat): (r: State)
    requires Open(st, slot) && Indexed(st)
    ensures CloseFrame(st, r, slot)
  {
    CloseKeeps(st, slot);
    SetSession(Leave(st, slot), slot, FreshSession)
  }

  lemma CloseKeeps(st: State, slot: nat)
    requires Open(st, slot) && Indexed(st)
    ensures |Leave(st, slot).sessions| == |st.sessions|
    ensures CloseFrame(st, SetSession(Leave(st, slot), slot, FreshSession), slot)
  {
    if st.sessions[slot].phase == Active {
      FfsplitVoteStep(st, StoredTrigger(st, slot, true));
    }
    forall i | 0 <= i < |st.sessions| && i != slot
      ensures VoteFieldsOnly(st.sessions[i], Leave(st, slot).sessions[i])
    {
    }
  }

  /** The server closes a connection: the session is cleaned up before the transport is told. */
  ghost function Evict(st: State, slot: nat): (r: State)
    requires Open(st, slot) && Indexed(st)
    ensures |r.sessions| == |st.sessions| && |r.clusters| == |st.clusters| && Indexed(r)
    ensures r.sessions[slot] == FreshSession
    ensures forall i :: 0 <= i < |st.sessions| && i != slot ==> VoteFieldsOnly(st.sessions[i], r.sessions[i])
    ensures st.out <= r.out && Closes(r.out) == Closes(st.out) + [slot]
  {
    var st1 := CloseSlot(st, slot);
    var r := st1.(out := st1.out + [Close(slot)]);
    assert r.out[..|r.out| - 1] == st1.out;
    r
  }

  /** The end of a session, closed by the peer or by the server. */
  ghost function Ended(st: State, slot: nat, evict: bool): (r: State)
    requires Open(st, slot) && Indexed(st)
    ensures r.sessions == CloseSlot(st, slot).sessions && r.clusters == CloseSlot(st, slot).clusters
  {
    if evict then Evict(st, slot) else CloseSlot(st, slot)
  }

  // ---------------------------------------------------------------- the whole server

  /** The protocol state together with, per slot, the receive buffer and the scheduled-for-closing
      flag of its session, the list of closes to do, and whether messages are being processed. */
  datatype Host = Host(core: State, rx: seq<seq<byte>>, closing: seq<bool>, pending: seq<nat>, processing: bool)

  /** One buffer and one flag per slot; pending closes name slots. */
  ghost predicate Ready(h: Host) {
    && |h.rx| == |h.closing| == |h.core.sessions|
    && Indexed(h.core)
    && forall k :: 0 <= k < |h.pending| ==> h.pending[k] < |h.core.sessions|
  }

  /** As many slots and cluster records as before. */
  predicate SameShape(h: Host, r: Host) {
    |r.core.sessions| == |h.core.sessions| && |r.core.clusters| == |h.core.clusters|
  }

  predicate OpenSlot(h: Host, slot: int) {
    Open(h.core, slot)
  }

  /** A slot reset: blank buffer, not scheduled. */
  function Wiped(h: Host, core: State, slot: nat): (r: Host)
    requires slot < |h.rx| && slot < |h.closing|
  {
    h.(core := core, rx := h.rx[slot := []], closing := h.closing[slot := false])
  }

  /** Take the session scheduled last off the list and close it, unless its slot is free. */
  ghost function DrainLast(h: Host): (r: Host)
    requires Ready(h) && h.pending != []
    ensures Ready(r) && r.pending == h.pending[..|h.pending| - 1] && SameShape(h, r)
  {
    var slot := h.pending[|h.pending| - 1];
    var h1 := h.(pending := h.pending[..|h.pending| - 1]);
    if !Open(h.core, slot) then h1 else Wiped(h1, Evict(h.core, slot), slot)
  }

  /** Close the scheduled sessions, last scheduled first. */
  ghost function Drain(h: Host): (r: Host)
    requires Ready(h)
    ensures Ready(r) && r.pending == [] && SameShape(h, r)
    decreases |h.pending|
  {
    if h.pending == [] then h else Drain(DrainLast(h))
  }

  ghost function DrainCloses(h: Host): (r: Host)
    requires Ready(h)
    ensures Ready(r) && r.pending == [] && !r.processing && SameShape(h, r)
  {
    Drain(h.(processing := true)).(processing := false)
  }

  /** Schedule a close; outside of message processing it happens at once. */
  ghost function Disconnect(h: Host, slot: nat): (r: Host)
    requires Ready(h) && slot < |h.core.sessions|
    ensures Ready(r) && SameShape(h, r)
  {
    if !Open(h.core, slot) || h.closing[slot] then h
    else
      var h1 := h.(closing := h.closing[slot := true], pending := h.pending + [slot]);
      if h.processing then h1 else DrainCloses(h1)
  }

  // ---------------------------------------------------------------- connections

  /** The first free slot, from `i` on. */
  function FreeSlot(st: State, i: nat): (r: Option<nat>)
    requires i <= |st.sessions|
    decreases |st.sessions| - i
    ensures r.Some? ==> i <= r.value < |st.sessions| && st.sessions[r.value].phase == Free
    ensures r.None? ==> forall k :: i <= k < |st.sessions| ==> st.sessions[k].phase != Free
  {
    if i == |st.sessions| then None
    else if st.sessions[i].phase == Free then Some(i)
    else FreeSlot(st, i + 1)
  }

  /** A connection takes the first free slot, or none. */
  function Connected(st: State, now: nat): (r: State) {
    match FreeSlot(st, 0)
    case None => st
    case Some(i) =>
      SetSession(st, i, FreshSession.(phase := WaitPreinit, deadline := now + PREACTIVE_TIMEOUT_MS))
  }

  ghost function OnConnect(h: Host, now: nat): (r: Host)
    requires Ready(h)
    ensures Ready(r) && SameShape(h, r)
  {
    match FreeSlot(h.core, 0)
    case None => h
    case Some(i) => Wiped(h, Connected(h.core, now), i)
  }

  ghost function OnDisconnected(h: Host, slot: int): (r: Host)
    requires Ready(h)
    ensures Ready(r) && SameShape(h, r)
  {
    if !OpenSlot(h, slot) then h
    else
      var h1 := Wiped(h, CloseSlot(h.core, slot), slot);
      if h.processing then h1 else DrainCloses(h1)
  }

  // ---------------------------------------------------------------- framing

  /** The message of a frame, if it decodes. */
  function Message(frame: seq<byte>): (m: Option<Decoded>)
    requires |frame| >= HEADER_LEN
  {
    Decode(frame[HEADER_LEN..])
  }

  /** A complete frame: undecodable ones end the session. */
  ghost function HandleFrame(h: Host, slot: nat, frame: seq<byte>, now: nat, maxRx: u32): (r: Host)
    requires Ready(h) && OpenSlot(h, slot) && |frame| >= HEADER_LEN
  {
    match Message(frame)
    case None => Disconnect(h.(core := SendErr(h.core, slot, Blank(), ErrorDecoding)), slot)
    case Some(m) => h.(core := HandleMsg(h.core, slot, T.Get16(frame), m, frame, now, maxRx))
  }

  /** Length of the first frame in a receive buffer that holds a header. */
  function FrameLen(rx: seq<byte>): (n: nat)
    requires |rx| >= HEADER_LEN
    ensures n >= HEADER_LEN
  {
    HEADER_LEN + T.Get32(rx[2..])
  }

  /** What consuming frames of `slot` keeps: the set of open slots, the other slots' buffers and
      flags, and the closes done so far. */
  ghost predicate LoopFrame(a: Host, b: Host, slot: nat) {
    && Ready(a) && Ready(b) && slot < |a.rx| && |b.core.sessions| == |a.core.sessions|
    && |b.core.clusters| == |a.core.clusters|
    && (forall i :: 0 <= i < |a.core.sessions| ==> (Open(b.core, i) <==> Open(a.core, i)))
    && b.rx == a.rx[slot := b.rx[slot]]
    && b.processing == a.processing
    && a.core.out <= b.core.out && Closes(b.core.out) == Closes(a.core.out)
    && (if b.closing[slot] == a.closing[slot] then b.closing == a.closing && b.pending == a.pending
        else b.closing == a.closing[slot := true] && b.pending == a.pending + [slot])
  }

  /** One frame handled and removed from the buffer. */
  ghost function ConsumeFrame(h: Host, slot: nat, now: nat, maxRx: u32): (r: Host)
    requires Ready(h) && OpenSlot(h, slot) && h.processing && !h.closing[slot]
    requires |h.rx[slot]| >= HEADER_LEN && |h.rx[slot]| >= FrameLen(h.rx[slot])
    ensures LoopFrame(h, r, slot)
    ensures r.rx[slot] == h.rx[slot][FrameLen(h.rx[slot])..]
  {
    var n := FrameLen(h.rx[slot]);
    var r := HandleFrame(h, slot, h.rx[slot][..n], now, maxRx);
    r.(rx := r.rx[slot := r.rx[slot][n..]])
  }

  /** Consume every complete frame of the buffer; an over-long one ends the session. */
  ghost function FrameLoop(h: Host, slot: nat, now: nat, maxRx: u32): (r: Host)
    requires Ready(h) && OpenSlot(h, slot) && h.processing
    ensures LoopFrame(h, r, slot)
    decreases |h.rx[slot]|
  {
    var rx := h.rx[slot];
    if h.closing[slot] || |rx| < HEADER_LEN then h
    else if FrameLen(rx) > HEADER_LEN + maxRx then
      Disconnect(h.(core := SendErr(h.core, slot, Blank(), MessageTooLong)), slot)
    else if |rx| < FrameLen(rx) then h
    else FrameLoop(ConsumeFrame(h, slot, now, maxRx), slot, now, maxRx)
  }

  /** Bytes buffered and the deadline renewed, ready to consume frames. */
  ghost function Heard(h: Host, slot: nat, data: seq<byte>, now: nat): (r: Host)
    requires Ready(h) && OpenSlot(h, slot)
    ensures Ready(r) && OpenSlot(r, slot) && r.processing
  {
    h.(core := SetSession(h.core, slot, Rescheduled(h.core.sessions[slot], now)),
       rx := h.rx[slot := h.rx[slot] + data], processing := true)
  }

  /** Received bytes: buffered, then every complete frame is handled, then scheduled closes
      happen. */
  ghost function OnData(h: Host, slot: int, data: seq<byte>, now: nat, maxRx: u32): (r: Host)
    requires Ready(h)
    ensures Ready(r) && SameShape(h, r)
  {
    if !OpenSlot(h, slot) || h.closing[slot] then h
    else DrainCloses(FrameLoop(Heard(h, slot, data, now), slot, now, maxRx))
  }

  // ---------------------------------------------------------------- the clock

  predicate Expired(h: Host, now: nat, i: nat)
    requires i < |h.core.sessions| && i < |h.closing|
  {
    Open(h.core, i) && h.core.sessions[i].deadline != 0 && !h.closing[i] && now >= h.core.sessions[i].deadline
  }

  /** Every session past its deadline is disconnected, in slot order from `i` on. */
  ghost function TickFrom(h: Host, now: nat, i: nat): (r: Host)
    requires Ready(h) && i <= |h.core.sessions|
    ensures Ready(r) && SameShape(h, r)
    decreases |h.core.sessions| - i
  {
    if i == |h.core.sessions| then h
    else if Expired(h, now, i) then TickFrom(Disconnect(h, i), now, i + 1)
    else TickFrom(h, now, i + 1)
  }

  ghost function Tick(h: Host, now: nat): (r: Host)
    requires Ready(h)
    ensures Ready(r) && SameShape(h, r)
  {
    TickFrom(h, now, 0)
  }
}
