/** How a broken stream ends: which bytes are a fault, and what the peer is told before it is cut off. */
module Faults {
  import opened Wire
  import opened Msg
  import opened Codec
  import T = Tlv
  import opened ServerState
  import opened Votes
  import opened Protocol
  import opened Events
  import opened Runs
  import opened Framing
  import opened Answers
  import opened Manual
  import opened Readings
  import opened DeadPeers

  /** The header announces more than the server takes. */
  predicate TooLong(b: seq<byte>, maxRx: u32) {
    |b| >= 6 && Four(b[2..6]) > maxRx
  }

  /** A complete frame that is no message. */
  predicate Garbled(b: seq<byte>, maxRx: u32) {
    && |b| >= 6 && Four(b[2..6]) <= maxRx && |b| >= 6 + Four(b[2..6])
    && Decode(b[6..6 + Four(b[2..6])]).None?
  }

  /** The bytes after the last good frame are broken, for this reason. */
  ghost predicate Breaks(rx: seq<byte>, fs: seq<seq<byte>>, bad: seq<byte>, maxRx: u32, code: ErrorCode) {
    && AllWhole(Decodes, fs, maxRx) && rx == Join(fs) + bad
    && ((TooLong(bad, maxRx) && code == MessageTooLong) || (Garbled(bad, maxRx) && code == ErrorDecoding))
  }

  lemma FrameOf(b: seq<byte>)
    requires |b| >= 6
    ensures FrameLen(b) == 6 + Four(b[2..6])
    ensures |b| >= FrameLen(b) ==> (Decodes(b[..FrameLen(b)]) <==> Decode(b[6..6 + Four(b[2..6])]).Some?)
  {
    HeaderByManual(b);
    if |b| >= FrameLen(b) {
      assert b[..FrameLen(b)][6..] == b[6..6 + Four(b[2..6])];
    }
  }

  /** A stream that breaks is faulty, for the same reason. */
  lemma BrokenIsFaulty(rx: seq<byte>, fs: seq<seq<byte>>, bad: seq<byte>, maxRx: u32, code: ErrorCode)
    requires Breaks(rx, fs, bad, maxRx, code)
    ensures Split(rx, maxRx).fault == Some(code)
  {
    JoinSplits(Decodes, fs, bad, maxRx);
    FrameOf(bad);
  }

  lemma BreaksLater(f: seq<byte>, tail: seq<byte>, fs: seq<seq<byte>>, bad: seq<byte>, maxRx: u32, code: ErrorCode)
    requires Whole(Decodes, f, maxRx) && Breaks(tail, fs, bad, maxRx, code)
    ensures Breaks(f + tail, [f] + fs, bad, maxRx, code)
  {
    JoinFirst([f] + fs, bad);
    assert ([f] + fs)[0] == f && ([f] + fs)[1..] == fs;
  }

  lemma BrokenAtOnce(rx: seq<byte>, maxRx: u32)
    requires Split(rx, maxRx).fault.Some? && !(HasFrame(rx, maxRx) && Decodes(rx[..FrameLen(rx)]))
    ensures Breaks(rx, [], rx, maxRx, Split(rx, maxRx).fault.value)
  {
    FrameOf(rx);
    assert Join([]) + rx == rx;
  }

  lemma FaultInTail(rx: seq<byte>, maxRx: u32)
    requires HasFrame(rx, maxRx) && Decodes(rx[..FrameLen(rx)])
    ensures Split(rx, maxRx).fault == Split(rx[FrameLen(rx)..], maxRx).fault
    ensures Whole(Decodes, rx[..FrameLen(rx)], maxRx) && rx[..FrameLen(rx)] + rx[FrameLen(rx)..] == rx
  {
    HeadIsWhole(Decodes, rx, maxRx);
  }

  /** And a faulty one breaks. */
  lemma {:induction false} FaultyIsBroken(rx: seq<byte>, maxRx: u32) returns (fs: seq<seq<byte>>, bad: seq<byte>)
    requires Split(rx, maxRx).fault.Some?
    ensures Breaks(rx, fs, bad, maxRx, Split(rx, maxRx).fault.value)
    decreases |rx|
  {
    if HasFrame(rx, maxRx) && Decodes(rx[..FrameLen(rx)]) {
      var f, tail := rx[..FrameLen(rx)], rx[FrameLen(rx)..];
      FaultInTail(rx, maxRx);
      fs, bad := FaultyIsBroken(tail, maxRx);
      BreaksLater(f, tail, fs, bad, maxRx, Split(tail, maxRx).fault.value);
      fs := [f] + fs;
    } else {
      BrokenAtOnce(rx, maxRx);
      fs, bad := [], rx;
    }
  }

  // ---------------------------------------------------------------- what the peer is told

  lemma {:induction false} AnswersJoin(a: seq<Event>, b: seq<Event>)
    ensures AnswersIn(a + b) == AnswersIn(a) + AnswersIn(b)
  {
    if b == [] {
      assert a + b == a;
    } else {
      AnswersJoin(a, b[..|b| - 1]);
      assert (a + b)[..|a + b| - 1] == a + b[..|b| - 1];
    }
  }

  /** The end of a session sends nothing but vote-infos. */
  lemma CloseOnlyVotes(st: State, slot: nat)
    requires Open(st, slot) && Indexed(st)
    ensures OnlyVotes(st, CloseSlot(st, slot))
  {
    if st.sessions[slot].phase == Active {
      FfsplitOnlyVotes(st, StoredTrigger(st, slot, true));
    } else {
      OnlyVotesOf(st, st, []);
    }
  }

  /** The last thing said to `slot` is why, and then it is closed. */
  ghost predicate ToldWhy(a: State, b: State, slot: nat, code: ErrorCode) {
    && a.out < b.out && b.out[|b.out| - 1] == Close(slot)
    && var said := AnswersIn(b.out[|a.out|..]);
       said != [] && said[|said| - 1] == Send(slot, ServerErrorReply(false, 0, code))
  }

  lemma SaidLast(before: seq<Event>, why: Event, votes: seq<Event>, slot: nat)
    requires IsAnswer(why) && AnswersIn(votes) == []
    ensures AnswersIn(before + [why] + votes + [Close(slot)]) == AnswersIn(before) + [why]
  {
    AnswersPush(before + [why] + votes, Close(slot));
    AnswersJoin(before + [why], votes);
    AnswersPush(before, why);
  }

  lemma TailOf(a: seq<Event>, before: seq<Event>, why: Event, votes: seq<Event>, end: Event)
    ensures (a + before + [why] + votes + [end])[|a|..] == before + [why] + votes + [end]
  {
  }

  lemma EvictSays(st: State, slot: nat) returns (votes: seq<Event>)
    requires Open(st, slot) && Indexed(st)
    ensures Evict(st, slot).out == st.out + votes + [Close(slot)] && AnswersIn(votes) == []
  {
    CloseOnlyVotes(st, slot);
    var st1 := CloseSlot(st, slot);
    votes := st1.out[|st.out|..];
    assert st1.out == st.out + votes;
    assert Evict(st, slot).out == st1.out + [Close(slot)];
  }

  lemma EvictTold(a: State, st: State, slot: nat, code: ErrorCode)
    requires Open(st, slot) && Indexed(st) && a.out <= st.out
    ensures Open(SendErr(st, slot, Blank(), code), slot) && Indexed(SendErr(st, slot, Blank(), code))
    ensures ToldWhy(a, Evict(SendErr(st, slot, Blank(), code), slot), slot, code)
  {
    var st1 := SendErr(st, slot, Blank(), code);
    var why := Send(slot, ServerErrorReply(false, 0, code));
    var votes := EvictSays(st1, slot);
    var before := st.out[|a.out|..];
    assert st.out == a.out + before && st1.out == st.out + [why];
    OutTold(a, Evict(st1, slot), slot, code, before, why, votes);
  }

  lemma OutTold(a: State, b: State, slot: nat, code: ErrorCode, before: seq<Event>, why: Event, votes: seq<Event>)
    requires b.out == a.out + before + [why] + votes + [Close(slot)]
    requires why == Send(slot, ServerErrorReply(false, 0, code)) && AnswersIn(votes) == []
    ensures ToldWhy(a, b, slot, code)
  {
    SaidLast(before, why, votes, slot);
    TailOf(a.out, before, why, votes, Close(slot));
  }

  /** After every run: received bytes that break everything the peer has sent are answered by the reason,
      without a sequence number, and cost the peer its connection. */
  lemma FaultTold(es: seq<Input>, maxRx: u32, slot: nat, data: seq<byte>, now: nat, fs: seq<seq<byte>>, bad: seq<byte>,
                  code: ErrorCode)
    requires slot < MAX_CLIENTS && OpenSlot(Run(es, maxRx), slot)
    requires Breaks(PeerOf(es, maxRx, slot).bytes + data, fs, bad, maxRx, code)
    ensures var h := Run(es, maxRx);
            var r := OnData(h, slot, data, now, maxRx);
            !OpenSlot(r, slot) && ToldWhy(h.core, r.core, slot, code)
  {
    var h := Run(es, maxRx);
    BrokenIsFaulty(PeerOf(es, maxRx, slot).bytes + data, fs, bad, maxRx, code);
    FaultCloses(es, maxRx, slot, data, now);
    SameFault(es, maxRx, slot, data);
    RunInv(es, maxRx);
    DataEffect(h, slot, data, now, maxRx);
    FedTold(h, slot, Split(h.rx[slot] + data, maxRx), now, maxRx, code);
  }

  lemma FedTold(h: Host, slot: nat, c: Cut, now: nat, maxRx: u32, code: ErrorCode)
    requires Ready(h) && OpenSlot(h, slot) && AllWhole(Decodes, c.frames, maxRx) && c.fault == Some(code)
    ensures ToldWhy(h.core, Fed(h, slot, c, now, maxRx).core, slot, code)
  {
    var st1 := Handled(Renewed(h.core, slot, now), slot, c.frames, now, maxRx);
    EvictTold(h.core, st1, slot, code);
  }

  lemma SameFault(es: seq<Input>, maxRx: u32, slot: nat, data: seq<byte>)
    requires slot < MAX_CLIENTS && OpenSlot(Run(es, maxRx), slot)
    ensures Split(Run(es, maxRx).rx[slot] + data, maxRx).fault
            == Split(PeerOf(es, maxRx, slot).bytes + data, maxRx).fault
  {
    PeerExact(es, maxRx, slot);
    SplitAppend(Decodes, PeerOf(es, maxRx, slot).bytes, data, maxRx);
  }

  /** And bytes that break nothing leave it open. */
  lemma OnlyFaultsCloseIt(es: seq<Input>, maxRx: u32, slot: nat, data: seq<byte>, now: nat)
    returns (fs: seq<seq<byte>>, bad: seq<byte>, code: ErrorCode)
    requires slot < MAX_CLIENTS && OpenSlot(Run(es, maxRx), slot)
    requires !OpenSlot(OnData(Run(es, maxRx), slot, data, now, maxRx), slot)
    ensures Breaks(PeerOf(es, maxRx, slot).bytes + data, fs, bad, maxRx, code)
  {
    FaultCloses(es, maxRx, slot, data, now);
    fs, bad := FaultyIsBroken(PeerOf(es, maxRx, slot).bytes + data, maxRx);
    code := Split(PeerOf(es, maxRx, slot).bytes + data, maxRx).fault.value;
  }
}
