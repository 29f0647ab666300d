/** The embedding of the server in the device: the transmit queue of a connection and the 64-bit
    clock made from a 32-bit one. */
module Transport {
  import opened Wire

  // ---------------------------------------------------------------- transmit queue

  /** How the socket answers a write. */
  datatype Written = Wrote(n: nat) | WouldBlock | Failed

  /** What happens on a connection: a frame is submitted, or the queue is flushed. */
  datatype Op = Submit(frame: seq<byte>, answer: Written) | Flush(answer: Written)

  /** The unsent remainder, and what the socket has taken. */
  datatype Line = Line(tx: seq<byte>, written: seq<byte>)

  /** The socket takes no more than it is given. */
  predicate Possible(l: Line, op: Op) {
    match op
    case Submit(frame, answer) => answer.Wrote? ==> answer.n <= |frame|
    case Flush(answer) => answer.Wrote? ==> answer.n <= |l.tx|
  }

  /** A frame goes to the socket at once only when nothing is queued; a broken socket loses it. */
  function Do(l: Line, op: Op): (r: Line)
    requires Possible(l, op)
  {
    match op
    case Submit(frame, answer) =>
      if l.tx != [] then l.(tx := l.tx + frame)
      else
        match answer {
          case Failed => l
          case WouldBlock => l.(tx := frame)
          case Wrote(n) => Line(frame[n..], l.written + frame[..n])
        }
    case Flush(answer) =>
      if l.tx != [] && answer.Wrote? then Line(l.tx[answer.n..], l.written + l.tx[..answer.n]) else l
  }

  predicate Loses(l: Line, op: Op) {
    op.Submit? && l.tx == [] && op.answer.Failed?
  }

  ghost predicate AllPossible(ops: seq<Op>)
    decreases |ops|, 0
  {
    ops != [] ==> AllPossible(ops[..|ops| - 1]) && Possible(After(ops[..|ops| - 1]), ops[|ops| - 1])
  }

  ghost function After(ops: seq<Op>): (l: Line)
    requires AllPossible(ops)
    decreases |ops|, 1
  {
    if ops == [] then Line([], []) else Do(After(ops[..|ops| - 1]), ops[|ops| - 1])
  }

  /** The bytes of the frames submitted, of those that were kept, and of those that were lost. */
  ghost function Submitted(ops: seq<Op>): (b: seq<byte>) {
    if ops == [] then []
    else Submitted(ops[..|ops| - 1]) + (if ops[|ops| - 1].Submit? then ops[|ops| - 1].frame else [])
  }

  ghost function Kept(ops: seq<Op>): (b: seq<byte>)
    requires AllPossible(ops)
  {
    if ops == [] then []
    else
      var op := ops[|ops| - 1];
      Kept(ops[..|ops| - 1])
      + (if op.Submit? && !Loses(After(ops[..|ops| - 1]), op) then op.frame else [])
  }

  /** No frame with content was lost to a broken socket. */
  ghost predicate NothingLost(ops: seq<Op>)
    requires AllPossible(ops)
  {
    ops != [] ==>
      && NothingLost(ops[..|ops| - 1])
      && (Loses(After(ops[..|ops| - 1]), ops[|ops| - 1]) ==> ops[|ops| - 1].frame == [])
  }

  lemma DoKeepsOrder(l: Line, op: Op)
    requires Possible(l, op)
    ensures var r := Do(l, op);
            r.written + r.tx
            == l.written + l.tx + (if op.Submit? && !Loses(l, op) then op.frame else [])
  {
    if op.Submit? && l.tx == [] && op.answer.Wrote? {
      assert op.frame[..op.answer.n] + op.frame[op.answer.n..] == op.frame;
    } else if op.Flush? && l.tx != [] && op.answer.Wrote? {
      assert l.tx[..op.answer.n] + l.tx[op.answer.n..] == l.tx;
    }
  }

  /** Whatever the socket does, what it has taken followed by what is queued is the frames that were
      not lost, whole and in order. */
  lemma {:induction false} OrderKept(ops: seq<Op>)
    requires AllPossible(ops)
    ensures After(ops).written + After(ops).tx == Kept(ops)
  {
    if ops != [] {
      OrderKept(ops[..|ops| - 1]);
      DoKeepsOrder(After(ops[..|ops| - 1]), ops[|ops| - 1]);
    }
  }

  lemma {:induction false} KeptIsSubmitted(ops: seq<Op>)
    requires AllPossible(ops)
    ensures |Kept(ops)| <= |Submitted(ops)|
    ensures |Kept(ops)| == |Submitted(ops)| <==> NothingLost(ops)
    ensures NothingLost(ops) ==> Kept(ops) == Submitted(ops)
  {
    if ops != [] {
      KeptIsSubmitted(ops[..|ops| - 1]);
    }
  }

  /** Every submitted byte is written or queued, in order, exactly when no frame was lost. */
  lemma TransmitExact(ops: seq<Op>)
    requires AllPossible(ops)
    ensures After(ops).written + After(ops).tx == Submitted(ops) <==> NothingLost(ops)
  {
    OrderKept(ops);
    KeptIsSubmitted(ops);
  }

  /** A connection slot. */
  class Conn {
    var used: bool
    var tx: seq<byte>
    ghost var written: seq<byte>

    ghost function Abs(): (l: Line)
      reads this
    {
      Line(tx, written)
    }

    constructor ()
      ensures !used && Abs() == Line([], [])
    {
      used, tx, written := false, [], [];
    }

    method Open()
      modifies this
      ensures used && Abs() == Line([], [])
    {
      used, tx, written := true, [], [];
    }

    /** Write at once if nothing is queued, queue what the socket does not take. */
    method SendFrame(data: seq<byte>, answer: Written)
      requires Possible(Abs(), Submit(data, answer))
      modifies this
      ensures used == old(used)
      ensures Abs() == if used then Do(old(Abs()), Submit(data, answer)) else old(Abs())
    {
      if !used {
        return;
      }
      if tx == [] {
        var n: nat := 0;
        match answer {
          case Failed => return;
          case WouldBlock =>
          case Wrote(k) => n := k;
        }
        written := written + data[..n];
        if n < |data| {
          tx := tx + data[n..];
        }
      } else {
        tx := tx + data;
      }
    }

    method FlushQueue(answer: Written)
      requires Possible(Abs(), Flush(answer))
      modifies this
      ensures used == old(used)
      ensures Abs() == if used then Do(old(Abs()), Flush(answer)) else old(Abs())
    {
      if used && tx != [] {
        match answer
        case Wrote(n) =>
          written := written + tx[..n];
          tx := tx[n..];
        case WouldBlock =>
        case Failed =>
      }
    }

    method CloseConnection()
      modifies this
      ensures !used && Abs() == Line([], [])
    {
      used, tx, written := false, [], [];
    }
  }

  // ---------------------------------------------------------------- the clock

  const LONG: int := 0x1_0000_0000_0000_0000

  /** The last 32-bit sample, and the part of the time above 32 bits. */
  datatype Clock = Clock(last: u32, high: u64)

  predicate Aligned(c: Clock) {
    c.high % WORD == 0
  }

  /** One sample taken: a smaller one than the last means the counter wrapped. */
  function Sampled(c: Clock, now: u32): (r: Clock)
    ensures Aligned(c) ==> Aligned(r)
  {
    Clock(now, if now < c.last then (c.high + WORD) % (LONG) else c.high)
  }

  /** The 64-bit reading; the high part has no low bits, so joining the two is adding them. */
  function Reading(c: Clock): (t: nat) {
    c.high + c.last
  }

  /** The clock after samples at the true times `ts`. */
  function ClockAt(ts: seq<nat>): (c: Clock)
    ensures Aligned(c)
  {
    if ts == [] then Clock(0, 0) else Sampled(ClockAt(ts[..|ts| - 1]), ts[|ts| - 1] % WORD)
  }

  predicate Advancing(ts: seq<nat>) {
    forall k :: 0 < k < |ts| ==> ts[k - 1] <= ts[k]
  }

  /** Every reading was the true time. */
  predicate Exact(ts: seq<nat>) {
    ts != [] ==> Exact(ts[..|ts| - 1]) && Reading(ClockAt(ts)) == ts[|ts| - 1]
  }

  /** The time since the sample before, or since the clock started. */
  function Gap(ts: seq<nat>, k: nat): (d: int)
    requires k < |ts|
  {
    var before: int := if k == 0 then 0 else ts[k - 1];
    ts[k] as int - before
  }

  /** The first sample comes before the first wrap, and none comes a whole wrap after another. */
  predicate Frequent(ts: seq<nat>) {
    forall k :: 0 <= k < |ts| ==> Gap(ts, k) < WORD
  }

  /** From an exact reading, the next one is exact if and only if less than a whole wrap passed. */
  lemma NextExact(c: Clock, t: nat, t': nat)
    requires Aligned(c) && Reading(c) == t && t <= t' < LONG
    ensures Reading(Sampled(c, t' % WORD)) == t' <==> t' - t < WORD
  {
    var a, b := t / WORD, t' / WORD;
    assert t == a * WORD + t % WORD && t' == b * WORD + t' % WORD;
    assert c.last == t % WORD && c.high == a * WORD by {
      Parts(c.high, c.last, a, t % WORD);
    }
    assert a <= b;
    if t' % WORD < c.last {
      assert b >= a + 1;
      assert (a + 1) * WORD < LONG;
    }
  }

  lemma Parts(high: nat, low: nat, a: nat, r: nat)
    requires high % WORD == 0 && low < WORD && r < WORD && high + low == a * WORD + r
    ensures high == a * WORD && low == r
  {
    var k := high / WORD;
    assert high == k * WORD;
    assert (k - a) * WORD == r - low;
  }

  lemma OneMoreGap(ts: seq<nat>)
    requires ts != []
    ensures Frequent(ts) <==> Frequent(ts[..|ts| - 1]) && Gap(ts, |ts| - 1) < WORD
  {
    var init := ts[..|ts| - 1];
    assert forall k :: 0 <= k < |init| ==> Gap(ts, k) == Gap(init, k);
  }

  /** The 64-bit clock shows the true time at every sample, if and only if samples are frequent
      enough. */
  lemma {:induction false} ClockExact(ts: seq<nat>)
    requires Advancing(ts) && (ts != [] ==> ts[|ts| - 1] < LONG)
    ensures Exact(ts) <==> Frequent(ts)
  {
    if ts != [] {
      var init, t := ts[..|ts| - 1], ts[|ts| - 1];
      assert init != [] ==> ts[|ts| - 2] <= t;
      ClockExact(init);
      OneMoreGap(ts);
      if Exact(init) {
        NextExact(ClockAt(init), if init == [] then 0 else init[|init| - 1], t);
      }
    }
  }

  class ClockExtender {
    var lastMillis: u32
    var millisHigh: u64

    ghost function Abs(): (c: Clock)
      reads this
    {
      Clock(lastMillis, millisHigh)
    }

    constructor ()
      ensures Abs() == ClockAt([])
    {
      lastMillis, millisHigh := 0, 0;
    }

    method Now(millis: u32) returns (t: nat)
      modifies this
      ensures Abs() == Sampled(old(Abs()), millis) && t == Reading(Abs())
    {
      if millis < lastMillis {
        millisHigh := (millisHigh + WORD) % (LONG);
      }
      lastMillis := millis;
      return millisHigh + millis;
    }
  }
}
