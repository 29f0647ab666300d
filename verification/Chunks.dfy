/** The state of the server does not depend on how received bytes are cut into chunks. */
module Chunks {
  import opened Wire
  import opened ServerState
  import opened Protocol
  import opened Events
  import opened Invariants
  import opened Runs
  import opened Framing
  import opened Timers

  /** Hearing from a peer again at the same time changes nothing. */
  lemma RenewedAgain(st: State, slot: nat, now: nat)
    requires Open(st, slot) && SessionOk(st.sessions[slot]) && HeardAt(st.sessions[slot], now)
    ensures Renewed(st, slot, now) == st
  {
    assert st.sessions[slot := st.sessions[slot]] == st.sessions;
  }

  /** Two cuts handled one after the other are one. */
  lemma OutcomeTwice(st: State, slot: nat, c: Cut, d: Cut, now: nat, maxRx: u32)
    requires Open(st, slot) && Indexed(st) && c.fault.None? && Inv(st, false)
    requires AllWhole(Decodes, c.frames, maxRx) && AllWhole(Decodes, d.frames, maxRx)
    ensures AllWhole(Decodes, c.frames + d.frames, maxRx)
    ensures var st1 := Outcome(Renewed(st, slot, now), slot, c, now, maxRx);
            Outcome(Renewed(st1, slot, now), slot, d, now, maxRx)
            == Outcome(Renewed(st, slot, now), slot, Cut(c.frames + d.frames, d.rest, d.fault), now, maxRx)
  {
    var st0 := Renewed(st, slot, now);
    HandledAppend(st0, slot, c.frames, d.frames, now, maxRx);
    OutcomeKeepsTime(st, slot, c, now, maxRx);
    var st1 := Outcome(st0, slot, c, now, maxRx);
    assert SessionOk(st1.sessions[slot]);
    RenewedAgain(st1, slot, now);
  }

  lemma FedTwice(h: Host, slot: nat, c: Cut, d: Cut, now: nat, maxRx: u32)
    requires Ready(h) && OpenSlot(h, slot) && c.fault.None? && Inv(h.core, false)
    requires AllWhole(Decodes, c.frames, maxRx) && AllWhole(Decodes, d.frames, maxRx)
    ensures AllWhole(Decodes, c.frames + d.frames, maxRx)
    ensures var h1 := Fed(h, slot, c, now, maxRx);
            && Ready(h1) && OpenSlot(h1, slot) && h1.rx[slot] == c.rest
            && Fed(h1, slot, d, now, maxRx) == Fed(h, slot, Cut(c.frames + d.frames, d.rest, d.fault), now, maxRx)
  {
    OutcomeTwice(h.core, slot, c, d, now, maxRx);
    assert h.rx[slot := c.rest][slot := d.rest] == h.rx[slot := d.rest];
    assert h.rx[slot := c.rest][slot := []] == h.rx[slot := []];
  }

  /** The closed form of received bytes agrees with itself on any split of the bytes. */
  lemma FedChunks(h: Host, slot: nat, a: seq<byte>, b: seq<byte>, now: nat, maxRx: u32)
    requires Ready(h) && OpenSlot(h, slot) && Inv(h.core, false)
    ensures AllWhole(Decodes, Split(h.rx[slot] + a, maxRx).frames, maxRx)
    ensures AllWhole(Decodes, Split(h.rx[slot] + (a + b), maxRx).frames, maxRx)
    ensures var h1 := Fed(h, slot, Split(h.rx[slot] + a, maxRx), now, maxRx);
            var h2 := Fed(h, slot, Split(h.rx[slot] + (a + b), maxRx), now, maxRx);
            if Split(h.rx[slot] + a, maxRx).fault.Some? then h1 == h2 && Ready(h1) && !OpenSlot(h1, slot)
            else Ready(h1) && OpenSlot(h1, slot)
                 && AllWhole(Decodes, Split(h1.rx[slot] + b, maxRx).frames, maxRx)
                 && Fed(h1, slot, Split(h1.rx[slot] + b, maxRx), now, maxRx) == h2
  {
    var c := Split(h.rx[slot] + a, maxRx);
    assert h.rx[slot] + a + b == h.rx[slot] + (a + b);
    SplitAppend(Decodes, h.rx[slot] + a, b, maxRx);
    SplitJoins(Decodes, h.rx[slot] + a, maxRx);
    SplitJoins(Decodes, h.rx[slot] + (a + b), maxRx);
    if c.fault.None? {
      SplitJoins(Decodes, c.rest + b, maxRx);
      FedTwice(h, slot, c, Split(c.rest + b, maxRx), now, maxRx);
    }
  }

  /** Splitting received bytes in two makes no difference at all. */
  lemma TwoChunks(h: Host, slot: int, a: seq<byte>, b: seq<byte>, now: nat, maxRx: u32)
    requires Idle(h, maxRx) && Inv(h.core, false)
    ensures OnData(h, slot, a + b, now, maxRx)
            == OnData(OnData(h, slot, a, now, maxRx), slot, b, now, maxRx)
  {
    if OpenSlot(h, slot) {
      FedChunks(h, slot, a, b, now, maxRx);
      DataEffect(h, slot, a, now, maxRx);
      DataEffect(h, slot, a + b, now, maxRx);
      DataIdle(h, slot, a, now, maxRx);
      if Split(h.rx[slot] + a, maxRx).fault.None? {
        DataEffect(Fed(h, slot, Split(h.rx[slot] + a, maxRx), now, maxRx), slot, b, now, maxRx);
      }
    }
  }

  ghost function Feed(h: Host, slot: int, chunks: seq<seq<byte>>, now: nat, maxRx: u32): (r: Host)
    requires Ready(h)
    decreases |chunks|
  {
    if chunks == [] then h else Feed(OnData(h, slot, chunks[0], now, maxRx), slot, chunks[1..], now, maxRx)
  }

  /** However a stream is cut into chunks, the server ends in the same state, with the same frames
      and closes handed to the transport. */
  lemma {:induction false} ChunksDoNotMatter(h: Host, slot: int, chunks: seq<seq<byte>>, now: nat, maxRx: u32)
    requires Idle(h, maxRx) && Inv(h.core, false) && chunks != []
    ensures Feed(h, slot, chunks, now, maxRx) == OnData(h, slot, Join(chunks), now, maxRx)
    decreases |chunks|
  {
    var h1 := OnData(h, slot, chunks[0], now, maxRx);
    if |chunks| == 1 {
      assert chunks[1..] == [];
      assert Join(chunks) == chunks[0];
    } else {
      OnDataInv(h, slot, chunks[0], now, maxRx, false);
      StepIdle(h, Data(slot, chunks[0], now), maxRx);
      ChunksDoNotMatter(h1, slot, chunks[1..], now, maxRx);
      TwoChunks(h, slot, chunks[0], Join(chunks[1..]), now, maxRx);
    }
  }
}
