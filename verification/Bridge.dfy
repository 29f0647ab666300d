/** From bytes to the network: every entry point of the server, down to the bytes it receives, is a
    sequence of the moves the network is made of, and a run whose peers answer their vote-infos in
    order is a run of the network. */
module Bridge {
  import opened Wire
  import opened Msg
  import T = Tlv
  import opened ServerState
  import opened Protocol
  import opened Events
  import opened Messages
  import opened Effects
  import Runs
  import opened Framing
  import opened Network
  import opened NetworkSteps
  import opened NetworkRuns

  // ---------------------------------------------------------------- inputs as moves

  /** The server's part of the moves `ms` leads from `st` to `r`. */
  ghost predicate Serves(st: State, ms: seq<Move>, r: State, maxRx: u32)
    decreases |ms|
  {
    if ms == [] then r == st
    else Indexed(st) && Concerns(st, ms[0]) && Serves(Served(st, ms[0], maxRx), ms[1..], r, maxRx)
  }

  lemma {:induction false} ServesAppend(a: State, ms: seq<Move>, b: State, more: seq<Move>, c: State, maxRx: u32)
    requires Serves(a, ms, b, maxRx) && Serves(b, more, c, maxRx)
    ensures Serves(a, ms + more, c, maxRx)
    decreases |ms|
  {
    if ms == [] {
      assert ms + more == more;
    } else {
      assert (ms + more)[0] == ms[0] && (ms + more)[1..] == ms[1..] + more;
      ServesAppend(Served(a, ms[0], maxRx), ms[1..], b, more, c, maxRx);
    }
  }

  lemma ServesOne(a: State, mv: Move, maxRx: u32)
    requires Indexed(a) && Concerns(a, mv)
    ensures Serves(a, [mv], Served(a, mv, maxRx), maxRx)
  {
    assert [mv][1..] == [];
  }

  /** One move, then others. */
  lemma ServesCons(a: State, mv: Move, b: State, rest: seq<Move>, c: State, maxRx: u32)
    requires Indexed(a) && Concerns(a, mv) && Served(a, mv, maxRx) == b && Serves(b, rest, c, maxRx)
    ensures Serves(a, [mv] + rest, c, maxRx)
  {
    assert ([mv] + rest)[1..] == rest;
  }

  /** The move that delivers one frame. */
  function Delivery(slot: nat, frame: seq<byte>, now: nat): (mv: Move)
    requires Decodes(frame)
  {
    var m := Message(frame).value;
    if T.Get16(frame) == VOTE_INFO_REPLY then Reply(slot, m, frame, now)
    else Deliver(slot, T.Get16(frame), m, frame, now)
  }

  function Deliveries(slot: nat, fs: seq<seq<byte>>, now: nat, maxRx: u32): (ms: seq<Move>)
    requires AllWhole(Decodes, fs, maxRx)
  {
    if fs == [] then []
    else
      assert Whole(Decodes, fs[0], maxRx);
      [Delivery(slot, fs[0], now)] + Deliveries(slot, fs[1..], now, maxRx)
  }

  lemma {:induction false} HandledIsMoves(st: State, slot: nat, fs: seq<seq<byte>>, now: nat, maxRx: u32)
    requires Open(st, slot) && Indexed(st) && AllWhole(Decodes, fs, maxRx)
    ensures Serves(st, Deliveries(slot, fs, now, maxRx), Handled(st, slot, fs, now, maxRx), maxRx)
    decreases |fs|
  {
    if fs != [] {
      assert Whole(Decodes, fs[0], maxRx);
      var st1 := HandleMsg(st, slot, T.Get16(fs[0]), Message(fs[0]).value, fs[0], now, maxRx);
      HandledIsMoves(st1, slot, fs[1..], now, maxRx);
      ServesCons(st, Delivery(slot, fs[0], now), st1, Deliveries(slot, fs[1..], now, maxRx),
                 Handled(st1, slot, fs[1..], now, maxRx), maxRx);
    }
  }

  /** The moves behind a stream with cut `c`: the deadline renewed, one delivery per frame, and on a
      fault a refusal followed by the end of the session. */
  function FedMoves(st: State, slot: nat, c: Cut, now: nat, maxRx: u32): (ms: seq<Move>)
    requires Open(st, slot) && AllWhole(Decodes, c.frames, maxRx)
  {
    [Touch(slot, Renewed(st, slot, now).sessions[slot].deadline)] + Deliveries(slot, c.frames, now, maxRx)
    + if c.fault.Some? then [Refuse(slot, c.fault.value), End(slot, true)] else []
  }

  lemma FedIsMoves(h: Host, slot: nat, c: Cut, now: nat, maxRx: u32)
    requires Ready(h) && OpenSlot(h, slot) && AllWhole(Decodes, c.frames, maxRx)
    ensures Serves(h.core, FedMoves(h.core, slot, c, now, maxRx), Fed(h, slot, c, now, maxRx).core, maxRx)
  {
    var st0 := Renewed(h.core, slot, now);
    var touch := Touch(slot, st0.sessions[slot].deadline);
    ServesOne(h.core, touch, maxRx);
    var st1 := Handled(st0, slot, c.frames, now, maxRx);
    var handled := Deliveries(slot, c.frames, now, maxRx);
    HandledIsMoves(st0, slot, c.frames, now, maxRx);
    ServesAppend(h.core, [touch], st0, handled, st1, maxRx);
    if c.fault.Some? {
      var fault := [Refuse(slot, c.fault.value), End(slot, true)];
      FaultIsMoves(st1, slot, c.fault.value, maxRx);
      ServesAppend(h.core, [touch] + handled, st1, fault, Fed(h, slot, c, now, maxRx).core, maxRx);
    } else {
      assert [touch] + handled + [] == [touch] + handled;
    }
  }

  lemma FaultIsMoves(st: State, slot: nat, code: ErrorCode, maxRx: u32)
    requires Open(st, slot) && Indexed(st)
    ensures Serves(st, [Refuse(slot, code), End(slot, true)], Evict(SendErr(st, slot, Blank(), code), slot), maxRx)
  {
    var st1 := SendErr(st, slot, Blank(), code);
    EndServes(st1, slot, maxRx);
    ServesCons(st, Refuse(slot, code), st1, [End(slot, true)], Evict(st1, slot), maxRx);
    assert [Refuse(slot, code)] + [End(slot, true)] == [Refuse(slot, code), End(slot, true)];
  }

  lemma EndServes(st: State, slot: nat, maxRx: u32)
    requires Open(st, slot) && Indexed(st)
    ensures Serves(st, [End(slot, true)], Evict(st, slot), maxRx)
  {
    ServesOne(st, End(slot, true), maxRx);
  }

  ghost function TickMoves(h: Host, now: nat, i: nat): (ms: seq<Move>)
    requires Ready(h) && i <= |h.core.sessions|
    decreases |h.core.sessions| - i
  {
    if i == |h.core.sessions| then []
    else if Expired(h, now, i) then [End(i, true)] + TickMoves(Disconnect(h, i), now, i + 1)
    else TickMoves(h, now, i + 1)
  }

  lemma {:induction false} TickIsMoves(h: Host, now: nat, i: nat, maxRx: u32)
    requires Runs.Idle(h, maxRx) && i <= |h.core.sessions|
    ensures Serves(h.core, TickMoves(h, now, i), TickFrom(h, now, i).core, maxRx)
    decreases |h.core.sessions| - i
  {
    if i < |h.core.sessions| {
      if Expired(h, now, i) {
        Runs.DisconnectIdle(h, i, maxRx);
        EndsOne(h, i, maxRx);
        TickIsMoves(Disconnect(h, i), now, i + 1, maxRx);
        ServesCons(h.core, End(i, true), Disconnect(h, i).core, TickMoves(Disconnect(h, i), now, i + 1),
                   TickFrom(h, now, i).core, maxRx);
      } else {
        TickIsMoves(h, now, i + 1, maxRx);
      }
    }
  }

  lemma EndsOne(h: Host, slot: nat, maxRx: u32)
    requires Runs.Idle(h, maxRx) && OpenSlot(h, slot)
    ensures Disconnect(h, slot).core == Evict(h.core, slot)
  {
    assert Runs.Resting(h, maxRx, slot);
    Runs.DrainOne(h.(closing := h.closing[slot := true], pending := [slot], processing := true), slot);
  }

  /** The moves an input of the server amounts to. */
  ghost function MovesOf(h: Host, e: Runs.Input, maxRx: u32): (ms: seq<Move>)
    requires Ready(h)
  {
    match e
    case Connect(now) => [NetworkRuns.Connect(now)]
    case Data(slot, bytes, now) =>
      if !OpenSlot(h, slot) then []
      else
        SplitJoins(Decodes, h.rx[slot] + bytes, maxRx);
        FedMoves(h.core, slot, Split(h.rx[slot] + bytes, maxRx), now, maxRx)
    case Disconnected(slot) => if OpenSlot(h, slot) then [End(slot, false)] else []
    case Clock(now) => TickMoves(h, now, 0)
  }

  /** Every input of the server amounts to a sequence of moves. */
  lemma StepIsMoves(h: Host, e: Runs.Input, maxRx: u32)
    requires Runs.Idle(h, maxRx)
    ensures Serves(h.core, MovesOf(h, e, maxRx), Runs.Step(h, e, maxRx).core, maxRx)
  {
    match e
    case Connect(now) => ServesOne(h.core, NetworkRuns.Connect(now), maxRx);
    case Data(slot, bytes, now) =>
      if OpenSlot(h, slot) {
        DataEffect(h, slot, bytes, now, maxRx);
        FedIsMoves(h, slot, Split(h.rx[slot] + bytes, maxRx), now, maxRx);
      }
    case Disconnected(slot) =>
      if OpenSlot(h, slot) {
        ServesOne(h.core, End(slot, false), maxRx);
      }
    case Clock(now) => TickIsMoves(h, now, 0, maxRx);
  }
}
