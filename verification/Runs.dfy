/** Whole runs: any sequence of connections, received bytes, disconnects and clock ticks. */
module Runs {
  import opened Wire
  import opened Msg
  import opened Codec
  import T = Tlv
  import opened ServerState
  import opened Protocol
  import opened Events
  import opened Invariants
  import opened Preservation
  import opened Renaming

  datatype Input =
    | Connect(now: nat)
    | Data(slot: int, bytes: seq<byte>, now: nat)
    | Disconnected(slot: int)
    | Clock(now: nat)

  ghost function Step(h: Host, e: Input, maxRx: u32): (r: Host)
    requires Ready(h)
    ensures Ready(r) && SameShape(h, r)
  {
    match e
    case Connect(now) => OnConnect(h, now)
    case Data(slot, bytes, now) => OnData(h, slot, bytes, now, maxRx)
    case Disconnected(slot) => OnDisconnected(h, slot)
    case Clock(now) => Tick(h, now)
  }

  function Boot(): (h: Host) {
    Host(Initial(), seq(MAX_CLIENTS, _ => []), seq(MAX_CLIENTS, _ => false), [], false)
  }

  // ---------------------------------------------------------------- clean runs

  ghost predicate CleanFrame(st: State, slot: nat, frame: seq<byte>)
    requires slot < |st.sessions| && |frame| >= HEADER_LEN
  {
    Message(frame).Some? ==> HarmlessMsg(st, slot, T.Get16(frame), Message(frame).value)
  }

  /** No frame in the buffer of `slot` is a harmful INIT on an active session. */
  ghost predicate CleanLoop(h: Host, slot: nat, now: nat, maxRx: u32)
    requires Ready(h) && OpenSlot(h, slot) && h.processing
    decreases |h.rx[slot]|
  {
    var rx := h.rx[slot];
    if h.closing[slot] || |rx| < HEADER_LEN || FrameLen(rx) > HEADER_LEN + maxRx || |rx| < FrameLen(rx)
    then true
    else
      && CleanFrame(h.core, slot, rx[..FrameLen(rx)])
      && CleanLoop(ConsumeFrame(h, slot, now, maxRx), slot, now, maxRx)
  }

  ghost predicate CleanInput(h: Host, e: Input, maxRx: u32)
    requires Ready(h)
  {
    e.Data? && OpenSlot(h, e.slot) && !h.closing[e.slot] ==>
      CleanLoop(Heard(h, e.slot, e.bytes, e.now), e.slot, e.now, maxRx)
  }

  // ---------------------------------------------------------------- the invariant, entry point by entry point

  lemma EvictInv(st: State, slot: nat, clean: bool)
    requires Open(st, slot) && Indexed(st) && Inv(st, clean)
    ensures Inv(Evict(st, slot), clean)
  {
    CloseInv(st, slot, clean);
    InvSame(CloseSlot(st, slot), Evict(st, slot), clean);
  }

  lemma {:induction false} DrainInv(h: Host, clean: bool)
    requires Ready(h) && Inv(h.core, clean)
    ensures Inv(Drain(h).core, clean)
    decreases |h.pending|
  {
    if h.pending != [] {
      var slot := h.pending[|h.pending| - 1];
      if Open(h.core, slot) {
        EvictInv(h.core, slot, clean);
      }
      DrainInv(DrainLast(h), clean);
    }
  }

  lemma DisconnectInv(h: Host, slot: nat, clean: bool)
    requires Ready(h) && slot < |h.core.sessions| && Inv(h.core, clean)
    ensures Inv(Disconnect(h, slot).core, clean)
  {
    if Open(h.core, slot) && !h.closing[slot] && !h.processing {
      DrainInv(h.(closing := h.closing[slot := true], pending := h.pending + [slot], processing := true), clean);
    }
  }

  lemma FailInv(h: Host, slot: nat, code: ErrorCode, clean: bool)
    requires Ready(h) && OpenSlot(h, slot) && Inv(h.core, clean)
    ensures Inv(Disconnect(h.(core := SendErr(h.core, slot, Blank(), code)), slot).core, clean)
  {
    InvSame(h.core, SendErr(h.core, slot, Blank(), code), clean);
    DisconnectInv(h.(core := SendErr(h.core, slot, Blank(), code)), slot, clean);
  }

  lemma ConsumeInv(h: Host, slot: nat, now: nat, maxRx: u32, clean: bool)
    requires Ready(h) && OpenSlot(h, slot) && h.processing && !h.closing[slot] && Inv(h.core, clean)
    requires |h.rx[slot]| >= HEADER_LEN && |h.rx[slot]| >= FrameLen(h.rx[slot])
    requires clean ==> CleanFrame(h.core, slot, h.rx[slot][..FrameLen(h.rx[slot])])
    ensures Inv(ConsumeFrame(h, slot, now, maxRx).core, clean)
  {
    HandleFrameInv(h, slot, h.rx[slot][..FrameLen(h.rx[slot])], now, maxRx, clean);
  }

  lemma HandleFrameInv(h: Host, slot: nat, frame: seq<byte>, now: nat, maxRx: u32, clean: bool)
    requires Ready(h) && OpenSlot(h, slot) && |frame| >= HEADER_LEN && Inv(h.core, clean)
    requires clean ==> CleanFrame(h.core, slot, frame)
    ensures Inv(HandleFrame(h, slot, frame, now, maxRx).core, clean)
  {
    match Message(frame)
    case None => FailInv(h, slot, ErrorDecoding, clean);
    case Some(m) => HarmlessMsgInv(h.core, slot, T.Get16(frame), m, frame, now, maxRx, clean);
  }

  lemma {:induction false} FrameLoopInv(h: Host, slot: nat, now: nat, maxRx: u32, clean: bool)
    requires Ready(h) && OpenSlot(h, slot) && h.processing && Inv(h.core, clean)
    requires clean ==> CleanLoop(h, slot, now, maxRx)
    ensures Inv(FrameLoop(h, slot, now, maxRx).core, clean)
    decreases |h.rx[slot]|
  {
    var rx := h.rx[slot];
    if h.closing[slot] || |rx| < HEADER_LEN {
    } else if FrameLen(rx) > HEADER_LEN + maxRx {
      FailInv(h, slot, MessageTooLong, clean);
    } else if |rx| >= FrameLen(rx) {
      ConsumeInv(h, slot, now, maxRx, clean);
      FrameLoopInv(ConsumeFrame(h, slot, now, maxRx), slot, now, maxRx, clean);
    }
  }

  lemma OnDataInv(h: Host, slot: int, data: seq<byte>, now: nat, maxRx: u32, clean: bool)
    requires Ready(h) && Inv(h.core, clean)
    requires clean ==> CleanInput(h, Data(slot, data, now), maxRx)
    ensures Inv(OnData(h, slot, data, now, maxRx).core, clean)
  {
    if OpenSlot(h, slot) && !h.closing[slot] {
      var h1 := Heard(h, slot, data, now);
      assert SessionOk(h.core.sessions[slot]);
      EditInv(h.core, slot, Rescheduled(h.core.sessions[slot], now), clean);
      FrameLoopInv(h1, slot, now, maxRx, clean);
      DrainInv(FrameLoop(h1, slot, now, maxRx).(processing := true), clean);
    }
  }

  lemma {:induction false} TickFromInv(h: Host, now: nat, i: nat, clean: bool)
    requires Ready(h) && i <= |h.core.sessions| && Inv(h.core, clean)
    ensures Inv(TickFrom(h, now, i).core, clean)
    decreases |h.core.sessions| - i
  {
    if i < |h.core.sessions| {
      if Expired(h, now, i) {
        DisconnectInv(h, i, clean);
        TickFromInv(Disconnect(h, i), now, i + 1, clean);
      } else {
        TickFromInv(h, now, i + 1, clean);
      }
    }
  }

  lemma OnDisconnectedInv(h: Host, slot: int, clean: bool)
    requires Ready(h) && Inv(h.core, clean)
    ensures Inv(OnDisconnected(h, slot).core, clean)
  {
    if OpenSlot(h, slot) {
      CloseInv(h.core, slot, clean);
      if !h.processing {
        DrainInv(Wiped(h, CloseSlot(h.core, slot), slot).(processing := true), clean);
      }
    }
  }

  lemma ConnectedInv(st: State, now: nat, clean: bool)
    requires Inv(st, clean)
    ensures Inv(Connected(st, now), clean)
  {
    match FreeSlot(st, 0)
    case None =>
    case Some(i) =>
      assert SessionOk(st.sessions[i]);
      EditInv(st, i, FreshSession.(phase := WaitPreinit, deadline := now + PREACTIVE_TIMEOUT_MS), clean);
  }

  lemma StepInv(h: Host, e: Input, maxRx: u32, clean: bool)
    requires Ready(h) && Inv(h.core, clean) && (clean ==> CleanInput(h, e, maxRx))
    ensures Inv(Step(h, e, maxRx).core, clean)
  {
    match e
    case Connect(now) => ConnectedInv(h.core, now, clean);
    case Data(slot, bytes, now) => OnDataInv(h, slot, bytes, now, maxRx, clean);
    case Disconnected(slot) => OnDisconnectedInv(h, slot, clean);
    case Clock(now) => TickFromInv(h, now, 0, clean);
  }

  // ---------------------------------------------------------------- between entry points

  /** A buffer holds a strict prefix of one admissible frame. */
  predicate Partial(rx: seq<byte>, maxRx: u32) {
    |rx| < HEADER_LEN || (FrameLen(rx) <= HEADER_LEN + maxRx && |rx| < FrameLen(rx))
  }

  /** Slot `i` is not scheduled for closing and holds no complete frame; a free slot holds
      nothing. */
  predicate Resting(h: Host, maxRx: u32, i: nat)
    requires i < |h.rx| && i < |h.closing| && i < |h.core.sessions|
  {
    !h.closing[i] && Partial(h.rx[i], maxRx) && (h.core.sessions[i].phase == Free ==> h.rx[i] == [])
  }

  ghost predicate RestingBut(h: Host, maxRx: u32, slot: int)
    requires Ready(h)
  {
    forall i :: 0 <= i < |h.rx| && i != slot ==> Resting(h, maxRx, i)
  }

  /** No close is pending, nothing is being processed, and no buffer holds a frame. */
  ghost predicate Idle(h: Host, maxRx: u32) {
    Ready(h) && h.pending == [] && !h.processing && RestingBut(h, maxRx, -1)
  }

  /** Closing the one scheduled session. */
  lemma DrainOne(h: Host, slot: nat)
    requires Ready(h) && h.pending == [slot] && Open(h.core, slot)
    ensures Drain(h) == Wiped(h.(pending := []), Evict(h.core, slot), slot)
  {
    assert h.pending[..|h.pending| - 1] == [];
  }

  /** Consuming frames stops on an empty or partial buffer, or with this one session scheduled for
      closing. */
  lemma {:induction false} FrameLoopEnds(h: Host, slot: nat, now: nat, maxRx: u32)
    requires Ready(h) && OpenSlot(h, slot) && h.processing && h.pending == [] && !h.closing[slot]
    ensures var r := FrameLoop(h, slot, now, maxRx);
            if r.closing[slot] then r.pending == [slot]
            else r.pending == [] && Partial(r.rx[slot], maxRx)
    decreases |h.rx[slot]|
  {
    var rx := h.rx[slot];
    if |rx| < HEADER_LEN || FrameLen(rx) > HEADER_LEN + maxRx || |rx| < FrameLen(rx) {
    } else {
      var h1 := ConsumeFrame(h, slot, now, maxRx);
      if !h1.closing[slot] {
        FrameLoopEnds(h1, slot, now, maxRx);
      }
    }
  }

  /** After the closes every session rests, when all but the one scheduled did. */
  lemma DrainIdle(h: Host, slot: nat, maxRx: u32)
    requires Ready(h) && Open(h.core, slot) && RestingBut(h, maxRx, slot)
    requires if h.closing[slot] then h.pending == [slot]
             else h.pending == [] && Partial(h.rx[slot], maxRx)
    ensures Idle(DrainCloses(h), maxRx)
  {
    var a := h.(processing := true);
    if h.closing[slot] {
      DrainOne(a, slot);
      EvictRests(h, slot, maxRx, Drain(a));
    }
    forall i | 0 <= i < |h.rx|
      ensures Resting(DrainCloses(h), maxRx, i)
    {
      assert if h.closing[slot] then Resting(Drain(a), maxRx, i) else i == slot || Resting(h, maxRx, i);
    }
  }

  lemma EvictRests(h: Host, slot: nat, maxRx: u32, r: Host)
    requires Ready(h) && Open(h.core, slot) && RestingBut(h, maxRx, slot) && Ready(r)
    requires r.core == Evict(h.core, slot) || r.core == CloseSlot(h.core, slot)
    requires r.rx == h.rx[slot := []] && r.closing == h.closing[slot := false]
    ensures RestingBut(r, maxRx, -1)
  {
    forall i | 0 <= i < |r.rx|
      ensures Resting(r, maxRx, i)
    {
      if i != slot {
        assert Resting(h, maxRx, i);
        assert VoteFieldsOnly(h.core.sessions[i], r.core.sessions[i]);
      }
    }
  }

  lemma DataIdle(h: Host, slot: nat, data: seq<byte>, now: nat, maxRx: u32)
    requires Idle(h, maxRx) && OpenSlot(h, slot)
    ensures Idle(OnData(h, slot, data, now, maxRx), maxRx)
  {
    assert Resting(h, maxRx, slot);
    var h1 := Heard(h, slot, data, now);
    FrameLoopEnds(h1, slot, now, maxRx);
    var h2 := FrameLoop(h1, slot, now, maxRx);
    forall i | 0 <= i < |h2.rx| && i != slot
      ensures Resting(h2, maxRx, i)
    {
      assert Resting(h, maxRx, i);
      assert Open(h2.core, i) <==> Open(h1.core, i);
    }
    DrainIdle(h2, slot, maxRx);
  }

  lemma DisconnectIdle(h: Host, slot: nat, maxRx: u32)
    requires Idle(h, maxRx) && OpenSlot(h, slot)
    ensures Idle(Disconnect(h, slot), maxRx)
  {
    assert Resting(h, maxRx, slot);
    var h1 := h.(closing := h.closing[slot := true], pending := h.pending + [slot]);
    forall i | 0 <= i < |h1.rx| && i != slot
      ensures Resting(h1, maxRx, i)
    {
      assert Resting(h, maxRx, i);
    }
    DrainIdle(h1, slot, maxRx);
  }

  lemma {:induction false} TickFromIdle(h: Host, now: nat, i: nat, maxRx: u32)
    requires Idle(h, maxRx) && i <= |h.core.sessions|
    ensures Idle(TickFrom(h, now, i), maxRx)
    decreases |h.core.sessions| - i
  {
    if i < |h.core.sessions| {
      if Expired(h, now, i) {
        DisconnectIdle(h, i, maxRx);
        TickFromIdle(Disconnect(h, i), now, i + 1, maxRx);
      } else {
        TickFromIdle(h, now, i + 1, maxRx);
      }
    }
  }

  lemma OnConnectIdle(h: Host, now: nat, maxRx: u32)
    requires Idle(h, maxRx)
    ensures Idle(OnConnect(h, now), maxRx)
  {
    var r := OnConnect(h, now);
    forall i | 0 <= i < |r.rx|
      ensures Resting(r, maxRx, i)
    {
      assert Resting(h, maxRx, i);
    }
  }

  lemma StepIdle(h: Host, e: Input, maxRx: u32)
    requires Idle(h, maxRx)
    ensures Idle(Step(h, e, maxRx), maxRx)
  {
    match e
    case Connect(now) => OnConnectIdle(h, now, maxRx);
    case Data(slot, bytes, now) =>
      if OpenSlot(h, slot) {
        DataIdle(h, slot, bytes, now, maxRx);
      }
    case Disconnected(slot) =>
      if OpenSlot(h, slot) {
        EvictRests(h, slot, maxRx, OnDisconnected(h, slot));
      }
    case Clock(now) => TickFromIdle(h, now, 0, maxRx);
  }

  // ---------------------------------------------------------------- runs

  lemma InitialInv()
    ensures Inv(Initial(), true)
  {
    var st := Initial();
    forall c
      ensures Members(st, c) == {} && DistinctIds(st, c)
    {
    }
    forall c, i
      ensures !InCluster(st, c, i)
    {
    }
  }

  /** The state after a run. */
  ghost function Run(es: seq<Input>, maxRx: u32): (h: Host)
    ensures Ready(h) && SameShape(Boot(), h)
  {
    if es == [] then Boot() else Step(Run(es[..|es| - 1], maxRx), es[|es| - 1], maxRx)
  }

  lemma RunMore(es: seq<Input>, e: Input, maxRx: u32)
    ensures Run(es + [e], maxRx) == Step(Run(es, maxRx), e, maxRx)
  {
    assert (es + [e])[..|es|] == es;
  }

  /** Bookkeeping and cluster states are exact and nothing is pending after every run, whatever the
      peers send. */
  lemma {:induction false} RunInv(es: seq<Input>, maxRx: u32)
    ensures Inv(Run(es, maxRx).core, false) && Idle(Run(es, maxRx), maxRx)
  {
    if es == [] {
      InitialInv();
    } else {
      var h := Run(es[..|es| - 1], maxRx);
      RunInv(es[..|es| - 1], maxRx);
      StepInv(h, es[|es| - 1], maxRx, false);
      StepIdle(h, es[|es| - 1], maxRx);
    }
  }

  /** Every INIT of the run on an already active session is harmless. */
  ghost predicate CleanRun(es: seq<Input>, maxRx: u32) {
    es != [] ==>
      && CleanRun(es[..|es| - 1], maxRx)
      && CleanInput(Run(es[..|es| - 1], maxRx), es[|es| - 1], maxRx)
  }

  lemma {:induction false} CleanRunInv(es: seq<Input>, maxRx: u32)
    requires CleanRun(es, maxRx)
    ensures Inv(Run(es, maxRx).core, true)
  {
    if es == [] {
      InitialInv();
    } else {
      CleanRunInv(es[..|es| - 1], maxRx);
      StepInv(Run(es[..|es| - 1], maxRx), es[|es| - 1], maxRx, true);
    }
  }
}
