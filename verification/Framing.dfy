/** Stream reassembly: what a byte stream means does not depend on how it is cut into chunks or on
    the state of the protocol. */
module Framing {
  import opened Wire
  import opened Msg
  import opened Codec
  import T = Tlv
  import opened ServerState
  import opened Protocol
  import opened Events
  import opened Runs

  // ---------------------------------------------------------------- cutting a stream

  /** A stream cut into its frames: what is left over, and the fault that ended it, if any. */
  datatype Cut = Cut(frames: seq<seq<byte>>, rest: seq<byte>, fault: Option<ErrorCode>)

  /** The stream starts with an admissible frame. */
  predicate HasFrame(rx: seq<byte>, maxRx: u32) {
    |rx| >= HEADER_LEN && FrameLen(rx) <= HEADER_LEN + maxRx && |rx| >= FrameLen(rx)
  }

  /** Cut a stream whose valid frames are those satisfying `ok`. */
  function SplitBy(ok: seq<byte> -> bool, rx: seq<byte>, maxRx: u32): (c: Cut)
    decreases |rx|
  {
    if !HasFrame(rx, maxRx) then
      Cut([], rx, if |rx| >= HEADER_LEN && FrameLen(rx) > HEADER_LEN + maxRx then Some(MessageTooLong) else None)
    else if !ok(rx[..FrameLen(rx)]) then Cut([], rx[FrameLen(rx)..], Some(ErrorDecoding))
    else
      var c := SplitBy(ok, rx[FrameLen(rx)..], maxRx);
      c.(frames := [rx[..FrameLen(rx)]] + c.frames)
  }

  /** One whole admissible frame. */
  predicate Whole(ok: seq<byte> -> bool, f: seq<byte>, maxRx: u32) {
    HasFrame(f, maxRx) && |f| == FrameLen(f) && ok(f)
  }

  predicate AllWhole(ok: seq<byte> -> bool, fs: seq<seq<byte>>, maxRx: u32) {
    forall k :: 0 <= k < |fs| ==> Whole(ok, fs[k], maxRx)
  }

  function Join(fs: seq<seq<byte>>): (b: seq<byte>) {
    if fs == [] then [] else fs[0] + Join(fs[1..])
  }

  lemma LengthKept(rx: seq<byte>, more: seq<byte>)
    requires |rx| >= HEADER_LEN
    ensures FrameLen(rx + more) == FrameLen(rx)
  {
    assert (rx + more)[2..][2..] == rx[2..][2..] + more;
  }

  /** The first frame is unaffected by what follows it. */
  lemma HeadKept(rx: seq<byte>, more: seq<byte>, maxRx: u32)
    requires HasFrame(rx, maxRx)
    ensures HasFrame(rx + more, maxRx) && FrameLen(rx + more) == FrameLen(rx)
    ensures (rx + more)[..FrameLen(rx)] == rx[..FrameLen(rx)]
    ensures (rx + more)[FrameLen(rx)..] == rx[FrameLen(rx)..] + more
  {
    LengthKept(rx, more);
  }

  lemma HeadIsWhole(ok: seq<byte> -> bool, rx: seq<byte>, maxRx: u32)
    requires HasFrame(rx, maxRx) && ok(rx[..FrameLen(rx)])
    ensures Whole(ok, rx[..FrameLen(rx)], maxRx)
  {
    var f := rx[..FrameLen(rx)];
    LengthKept(f, rx[FrameLen(rx)..]);
    assert f + rx[FrameLen(rx)..] == rx;
  }

  /** Only whole frames are cut off, and without a fault nothing is lost: the frames and the rest
      put together are the stream, and the rest is not yet a frame. */
  lemma {:induction false} SplitJoins(ok: seq<byte> -> bool, rx: seq<byte>, maxRx: u32)
    ensures var c := SplitBy(ok, rx, maxRx);
            && AllWhole(ok, c.frames, maxRx)
            && (c.fault.None? ==> Join(c.frames) + c.rest == rx && Partial(c.rest, maxRx))
    decreases |rx|
  {
    if HasFrame(rx, maxRx) && ok(rx[..FrameLen(rx)]) {
      var n := FrameLen(rx);
      SplitJoins(ok, rx[n..], maxRx);
      HeadIsWhole(ok, rx, maxRx);
      var c := SplitBy(ok, rx[n..], maxRx);
      JoinCons(rx[..n], c.frames, c.rest);
      assert rx[..n] + rx[n..] == rx;
    }
  }

  lemma JoinCons(f: seq<byte>, fs: seq<seq<byte>>, rest: seq<byte>)
    ensures Join([f] + fs) + rest == f + (Join(fs) + rest)
  {
    assert ([f] + fs)[1..] == fs;
  }

  /** Whole frames sent back to back come out again, whatever follows them. */
  lemma {:induction false} JoinSplits(ok: seq<byte> -> bool, fs: seq<seq<byte>>, more: seq<byte>, maxRx: u32)
    requires AllWhole(ok, fs, maxRx)
    ensures var c := SplitBy(ok, more, maxRx);
            SplitBy(ok, Join(fs) + more, maxRx) == Cut(fs + c.frames, c.rest, c.fault)
  {
    var c := SplitBy(ok, more, maxRx);
    if fs == [] {
      assert Join(fs) + more == more && fs + c.frames == c.frames;
    } else {
      JoinSplits(ok, fs[1..], more, maxRx);
      JoinMore(ok, fs, more, maxRx, c);
    }
  }

  lemma JoinMore(ok: seq<byte> -> bool, fs: seq<seq<byte>>, more: seq<byte>, maxRx: u32, c: Cut)
    requires fs != [] && Whole(ok, fs[0], maxRx)
    requires SplitBy(ok, Join(fs[1..]) + more, maxRx) == Cut(fs[1..] + c.frames, c.rest, c.fault)
    ensures SplitBy(ok, Join(fs) + more, maxRx) == Cut(fs + c.frames, c.rest, c.fault)
  {
    SplitCons(ok, fs[0], Join(fs[1..]) + more, maxRx);
    JoinFirst(fs, more);
    ConsAppend(fs, c.frames);
  }

  lemma JoinFirst(fs: seq<seq<byte>>, more: seq<byte>)
    requires fs != []
    ensures Join(fs) + more == fs[0] + (Join(fs[1..]) + more)
  {
  }

  lemma ConsAppend(fs: seq<seq<byte>>, more: seq<seq<byte>>)
    requires fs != []
    ensures [fs[0]] + (fs[1..] + more) == fs + more
  {
  }

  lemma SplitCons(ok: seq<byte> -> bool, f: seq<byte>, tail: seq<byte>, maxRx: u32)
    requires Whole(ok, f, maxRx)
    ensures var c := SplitBy(ok, tail, maxRx);
            SplitBy(ok, f + tail, maxRx) == Cut([f] + c.frames, c.rest, c.fault)
  {
    HeadKept(f, tail, maxRx);
    assert f[..FrameLen(f)] == f && f[FrameLen(f)..] + tail == tail;
  }

  /** A later chunk continues where the earlier ones left off; after a fault nothing counts. */
  lemma {:induction false} SplitAppend(ok: seq<byte> -> bool, a: seq<byte>, b: seq<byte>, maxRx: u32)
    ensures var c := SplitBy(ok, a, maxRx);
            var c' := SplitBy(ok, a + b, maxRx);
            var d := SplitBy(ok, c.rest + b, maxRx);
            if c.fault.Some? then c'.frames == c.frames && c'.fault == c.fault
            else c' == Cut(c.frames + d.frames, d.rest, d.fault)
    decreases |a|
  {
    if |a| >= HEADER_LEN {
      LengthKept(a, b);
    }
    if HasFrame(a, maxRx) {
      HeadKept(a, b, maxRx);
      if ok(a[..FrameLen(a)]) {
        SplitAppend(ok, a[FrameLen(a)..], b, maxRx);
        var c := SplitBy(ok, a[FrameLen(a)..], maxRx);
        var d := SplitBy(ok, c.rest + b, maxRx);
        assert ([a[..FrameLen(a)]] + c.frames) + d.frames == [a[..FrameLen(a)]] + (c.frames + d.frames);
      }
    }
  }

  // ---------------------------------------------------------------- handling a stream

  predicate Decodes(f: seq<byte>) {
    |f| >= HEADER_LEN && Message(f).Some?
  }

  function Split(rx: seq<byte>, maxRx: u32): (c: Cut) {
    SplitBy(Decodes, rx, maxRx)
  }

  /** The frames handled one after the other. */
  ghost function Handled(st: State, slot: nat, fs: seq<seq<byte>>, now: nat, maxRx: u32): (r: State)
    requires Open(st, slot) && Indexed(st) && AllWhole(Decodes, fs, maxRx)
    ensures HandlerFrame(st, r)
    decreases |fs|
  {
    if fs == [] then st
    else
      assert Whole(Decodes, fs[0], maxRx);
      Handled(HandleMsg(st, slot, T.Get16(fs[0]), Message(fs[0]).value, fs[0], now, maxRx), slot, fs[1..], now, maxRx)
  }

  lemma {:induction false} HandledAppend(st: State, slot: nat, a: seq<seq<byte>>, b: seq<seq<byte>>, now: nat,
      maxRx: u32)
    requires Open(st, slot) && Indexed(st) && AllWhole(Decodes, a, maxRx) && AllWhole(Decodes, b, maxRx)
    ensures AllWhole(Decodes, a + b, maxRx)
    ensures Handled(st, slot, a + b, now, maxRx)
            == Handled(Handled(st, slot, a, now, maxRx), slot, b, now, maxRx)
    decreases |a|
  {
    if a == [] {
      assert a + b == b;
    } else {
      assert Whole(Decodes, a[0], maxRx) && (a + b)[0] == a[0] && (a + b)[1..] == a[1..] + b;
      HandledAppend(HandleMsg(st, slot, T.Get16(a[0]), Message(a[0]).value, a[0], now, maxRx), slot, a[1..], b,
          now, maxRx);
    }
  }

  /** The outcome of a stream: its frames handled, then the answer to its fault, if any. */
  ghost function Outcome(st: State, slot: nat, c: Cut, now: nat, maxRx: u32): (r: State)
    requires Open(st, slot) && Indexed(st) && AllWhole(Decodes, c.frames, maxRx)
    ensures HandlerFrame(st, r)
  {
    var st1 := Handled(st, slot, c.frames, now, maxRx);
    if c.fault.Some? then SendErr(st1, slot, Blank(), c.fault.value) else st1
  }

  /** The host once a stream with cut `c` has been consumed for `slot`, leaving protocol state
      `st`: the rest stays buffered and a fault schedules the close. */
  function Consumed(h: Host, slot: nat, c: Cut, st: State): (r: Host)
    requires slot < |h.rx| && slot < |h.closing|
  {
    h.(core := st, rx := h.rx[slot := c.rest],
       closing := if c.fault.Some? then h.closing[slot := true] else h.closing,
       pending := if c.fault.Some? then h.pending + [slot] else h.pending)
  }

  /** The frame loop of the server handles exactly the frames of the stream, in order, whatever
      they do to the protocol state, and schedules a close exactly on a fault. */
  lemma {:induction false} LoopIsSplit(h: Host, slot: nat, now: nat, maxRx: u32)
    requires Ready(h) && OpenSlot(h, slot) && h.processing && !h.closing[slot]
    ensures var c := Split(h.rx[slot], maxRx);
            && AllWhole(Decodes, c.frames, maxRx)
            && FrameLoop(h, slot, now, maxRx) == Consumed(h, slot, c, Outcome(h.core, slot, c, now, maxRx))
    decreases |h.rx[slot]|
  {
    var rx := h.rx[slot];
    SplitJoins(Decodes, rx, maxRx);
    if !HasFrame(rx, maxRx) {
      assert h.rx[slot := rx] == h.rx;
    } else {
      var n := FrameLen(rx);
      var h1 := ConsumeFrame(h, slot, now, maxRx);
      ConsumeOne(h, slot, now, maxRx);
      if Message(rx[..n]).Some? {
        LoopIsSplit(h1, slot, now, maxRx);
        OutcomeStep(h.core, slot, rx, now, maxRx);
        ConsumedStep(h, h1.core, slot, Split(rx[n..], maxRx), Split(rx, maxRx), rx[n..],
                     Outcome(h.core, slot, Split(rx, maxRx), now, maxRx));
      }
    }
  }

  lemma ConsumedStep(h: Host, st1: State, slot: nat, c1: Cut, c: Cut, tail: seq<byte>, st: State)
    requires slot < |h.rx| && slot < |h.closing| && c1.rest == c.rest && c1.fault == c.fault
    ensures Consumed(h.(core := st1, rx := h.rx[slot := tail]), slot, c1, st) == Consumed(h, slot, c, st)
  {
    assert h.rx[slot := tail][slot := c.rest] == h.rx[slot := c.rest];
  }

  lemma ConsumeOne(h: Host, slot: nat, now: nat, maxRx: u32)
    requires Ready(h) && OpenSlot(h, slot) && h.processing && !h.closing[slot]
    requires |h.rx[slot]| >= HEADER_LEN && |h.rx[slot]| >= FrameLen(h.rx[slot])
    ensures var rx := h.rx[slot];
            var frame := rx[..FrameLen(rx)];
            var h1 := h.(rx := h.rx[slot := rx[FrameLen(rx)..]]);
            ConsumeFrame(h, slot, now, maxRx)
            == match Message(frame)
               case Some(m) => h1.(core := HandleMsg(h.core, slot, T.Get16(frame), m, frame, now, maxRx))
               case None => h1.(core := SendErr(h.core, slot, Blank(), ErrorDecoding),
                                closing := h.closing[slot := true], pending := h.pending + [slot])
  {
  }

  lemma OutcomeStep(st: State, slot: nat, rx: seq<byte>, now: nat, maxRx: u32)
    requires Open(st, slot) && Indexed(st)
    requires HasFrame(rx, maxRx) && Message(rx[..FrameLen(rx)]).Some?
    ensures var c := Split(rx, maxRx);
            var c1 := Split(rx[FrameLen(rx)..], maxRx);
            && AllWhole(Decodes, c.frames, maxRx) && AllWhole(Decodes, c1.frames, maxRx)
            && Outcome(st, slot, c, now, maxRx)
               == Outcome(HandleMsg(st, slot, T.Get16(rx[..FrameLen(rx)]), Message(rx[..FrameLen(rx)]).value,
                                    rx[..FrameLen(rx)], now, maxRx), slot, c1, now, maxRx)
  {
    SplitJoins(Decodes, rx, maxRx);
    SplitJoins(Decodes, rx[FrameLen(rx)..], maxRx);
    HeadIsWhole(Decodes, rx, maxRx);
    var c := Split(rx, maxRx);
    var c1 := Split(rx[FrameLen(rx)..], maxRx);
    assert c.frames[0] == rx[..FrameLen(rx)] && c.frames[1..] == c1.frames;
  }

  /** The peer in `slot` heard from at `now`. */
  function Renewed(st: State, slot: nat, now: nat): (r: State)
    requires Open(st, slot)
    ensures Open(r, slot) && (Indexed(st) ==> Indexed(r))
  {
    SetSession(st, slot, Rescheduled(st.sessions[slot], now))
  }

  /** Received bytes in closed form, given the cut of the buffered and the new bytes: the frames are
      handled, and the peer is disconnected exactly when the stream has a fault. */
  ghost function Fed(h: Host, slot: nat, c: Cut, now: nat, maxRx: u32): (r: Host)
    requires Ready(h) && OpenSlot(h, slot) && AllWhole(Decodes, c.frames, maxRx)
  {
    var st := Outcome(Renewed(h.core, slot, now), slot, c, now, maxRx);
    if c.fault.Some? then Wiped(h, Evict(st, slot), slot) else h.(core := st, rx := h.rx[slot := c.rest])
  }

  lemma DataEffect(h: Host, slot: nat, data: seq<byte>, now: nat, maxRx: u32)
    requires Idle(h, maxRx) && OpenSlot(h, slot)
    ensures var c := Split(h.rx[slot] + data, maxRx);
            && AllWhole(Decodes, c.frames, maxRx)
            && OnData(h, slot, data, now, maxRx) == Fed(h, slot, c, now, maxRx)
  {
    assert Resting(h, maxRx, slot);
    var h1 := Heard(h, slot, data, now);
    var c := Split(h.rx[slot] + data, maxRx);
    LoopIsSplit(h1, slot, now, maxRx);
    var h2 := FrameLoop(h1, slot, now, maxRx);
    assert h1.rx[slot := c.rest] == h.rx[slot := c.rest];
    if c.fault.Some? {
      FaultDrained(h, h2, slot, c.rest);
    }
  }

  /** Draining the close a fault has scheduled. */
  lemma FaultDrained(h: Host, h2: Host, slot: nat, rest: seq<byte>)
    requires Ready(h) && Ready(h2) && slot < |h.rx| && Open(h2.core, slot) && !h.closing[slot]
    requires h2.rx == h.rx[slot := rest] && h2.closing == h.closing[slot := true] && h2.pending == [slot]
    requires h.pending == [] && !h.processing
    ensures DrainCloses(h2) == Wiped(h, Evict(h2.core, slot), slot)
  {
    DrainOne(h2.(processing := true), slot);
    assert h2.rx[slot := []] == h.rx[slot := []] && h2.closing[slot := false] == h.closing[slot := false];
  }
}
