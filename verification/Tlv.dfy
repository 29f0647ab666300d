/** The option layer: every payload is a sequence of options, each a 16-bit type, a 16-bit length
    and that many bytes, all big-endian. */
module Tlv {
  import opened Wire

  // ---------------------------------------------------------------- big-endian numbers

  function Put16(v: u16): (b: seq<byte>) {
    [v / 0x100, v % 0x100]
  }

  function Put32(v: u32): (b: seq<byte>) {
    Put16(v / 0x1_0000) + Put16(v % 0x1_0000)
  }

  function Put64(v: u64): (b: seq<byte>) {
    Put32(v / WORD) + Put32(v % WORD)
  }

  function Get16(b: seq<byte>): (v: u16)
    requires |b| >= 2
  {
    b[0] as int * 0x100 + b[1] as int
  }

  function Get32(b: seq<byte>): (v: u32)
    requires |b| >= 4
  {
    Get16(b) * 0x1_0000 + Get16(b[2..])
  }

  function Get64(b: seq<byte>): (v: u64)
    requires |b| >= 8
  {
    Get32(b) * WORD + Get32(b[4..])
  }

  lemma GetPut16(v: u16, rest: seq<byte>)
    ensures Get16(Put16(v) + rest) == v
  {
  }

  lemma PutGet16(b: seq<byte>)
    requires |b| >= 2
    ensures Put16(Get16(b)) == b[..2]
  {
  }

  lemma GetPut32(v: u32, rest: seq<byte>)
    ensures Get32(Put32(v) + rest) == v
  {
    var b := Put32(v) + rest;
    assert b[2..] == Put16(v % 0x1_0000) + rest;
    GetPut16(v % 0x1_0000, rest);
  }

  lemma GetPut64(v: u64, rest: seq<byte>)
    ensures Get64(Put64(v) + rest) == v
  {
    var b := Put64(v) + rest;
    assert b == Put32(v / WORD) + (Put32(v % WORD) + rest);
    GetPut32(v / WORD, Put32(v % WORD) + rest);
    assert b[4..] == Put32(v % WORD) + rest;
    GetPut32(v % WORD, rest);
  }

  // ---------------------------------------------------------------- options

  datatype Opt = Opt(kind: u16, data: seq<byte>)

  predicate Encodable(t: Opt) {
    |t.data| < 0x1_0000
  }

  function Encode(t: Opt): (b: seq<byte>)
    requires Encodable(t)
    ensures |b| == 4 + |t.data|
  {
    Put16(t.kind) + Put16(|t.data|) + t.data
  }

  predicate AllEncodable(ts: seq<Opt>) {
    forall t :: t in ts ==> Encodable(t)
  }

  function EncodeAll(ts: seq<Opt>): (b: seq<byte>)
    requires AllEncodable(ts)
  {
    if ts == [] then [] else Encode(ts[0]) + EncodeAll(ts[1..])
  }

  /** A payload starts with one complete option. */
  predicate Complete(p: seq<byte>) {
    |p| >= 4 && 4 + Get16(p[2..]) <= |p|
  }

  function Head(p: seq<byte>): (t: Opt)
    requires Complete(p)
  {
    Opt(Get16(p), p[4..4 + Get16(p[2..])])
  }

  function Tail(p: seq<byte>): (r: seq<byte>)
    requires Complete(p)
    ensures |r| < |p|
  {
    p[4 + Get16(p[2..])..]
  }

  /** The options of a payload, or nothing when it is malformed. */
  function Parse(p: seq<byte>): (r: Option<seq<Opt>>)
    decreases |p|
  {
    if p == [] then Some([])
    else if !Complete(p) then None
    else
      match Parse(Tail(p))
      case None => None
      case Some(ts) => Some([Head(p)] + ts)
  }

  /** Splitting off the first option and writing it back are inverse. */
  lemma EncodeHead(p: seq<byte>)
    requires Complete(p)
    ensures Encodable(Head(p)) && p == Encode(Head(p)) + Tail(p)
  {
    var n := Get16(p[2..]);
    PutGet16(p);
    PutGet16(p[2..]);
    assert p == p[..2] + p[2..4] + p[4..4 + n] + p[4 + n..];
    assert p[2..][..2] == p[2..4];
  }

  lemma HeadEncode(t: Opt, rest: seq<byte>)
    requires Encodable(t)
    ensures Complete(Encode(t) + rest)
    ensures Head(Encode(t) + rest) == t && Tail(Encode(t) + rest) == rest
  {
    var p := Encode(t) + rest;
    assert p == Put16(t.kind) + (Put16(|t.data|) + t.data + rest);
    GetPut16(t.kind, Put16(|t.data|) + t.data + rest);
    assert p[2..] == Put16(|t.data|) + (t.data + rest);
    GetPut16(|t.data|, t.data + rest);
  }

  /** What parses is exactly what was written: re-encoding reproduces the payload byte for byte. */
  lemma {:induction false} EncodeParse(p: seq<byte>)
    requires Parse(p).Some?
    ensures AllEncodable(Parse(p).value) && EncodeAll(Parse(p).value) == p
    decreases |p|
  {
    if p != [] {
      EncodeParse(Tail(p));
      EncodeHead(p);
      var ts := Parse(Tail(p)).value;
      assert ([Head(p)] + ts)[1..] == ts;
    }
  }

  /** What is written parses, and yields the same options in the same order. */
  lemma {:induction false} ParseEncode(ts: seq<Opt>)
    requires AllEncodable(ts)
    ensures Parse(EncodeAll(ts)) == Some(ts)
  {
    if ts != [] {
      ParseEncode(ts[1..]);
      HeadEncode(ts[0], EncodeAll(ts[1..]));
      assert ts == [ts[0]] + ts[1..];
    }
  }

  /** The parser accepts exactly the concatenations of encoded options. */
  lemma ParseExact(p: seq<byte>)
    ensures Parse(p).Some? <==> exists ts :: AllEncodable(ts) && p == EncodeAll(ts)
    ensures forall ts :: AllEncodable(ts) && p == EncodeAll(ts) ==> Parse(p) == Some(ts)
  {
    if Parse(p).Some? {
      EncodeParse(p);
    }
    forall ts | AllEncodable(ts) && p == EncodeAll(ts)
      ensures Parse(p) == Some(ts)
    {
      ParseEncode(ts);
    }
  }

  lemma {:induction false} EncodeAllAppend(a: seq<Opt>, b: seq<Opt>)
    requires AllEncodable(a) && AllEncodable(b)
    ensures AllEncodable(a + b) && EncodeAll(a + b) == EncodeAll(a) + EncodeAll(b)
  {
    if a == [] {
      assert a + b == b;
    } else {
      var t, rest := a[0], a[1..];
      EncodeAllAppend(rest, b);
      assert (a + b)[0] == t && (a + b)[1..] == rest + b;
      Associate(Encode(t), EncodeAll(rest), EncodeAll(b));
    }
  }

  lemma Associate(x: seq<byte>, y: seq<byte>, z: seq<byte>)
    ensures x + (y + z) == (x + y) + z
  {
  }

  // ---------------------------------------------------------------- iterator

  /** The option at position `at`, read in place. */
  lemma OptionAt(p: seq<byte>, at: nat)
    requires at + 4 <= |p|
    ensures var n := Get16(p[at + 2..]);
            && (Complete(p[at..]) <==> at + 4 + n <= |p|)
            && (Complete(p[at..]) ==>
                  && Head(p[at..]) == Opt(Get16(p[at..]), p[at + 4..at + 4 + n])
                  && Tail(p[at..]) == p[at + 4 + n..])
  {
    assert p[at..][2..] == p[at + 2..];
  }

  /** Cursor over a payload. After a positive `Next` the cursor stands on an option that lies
      entirely within the payload. */
  class TlvIterator {
    const payload: seq<byte>
    var pos: nat
    var curType: u16
    var curLen: u16
    var first: bool

    /** The part of the payload not yet visited. */
    ghost function Rest(): (r: seq<byte>)
      requires Valid()
      reads this
    {
      if first then payload else payload[pos + 4 + curLen..]
    }

    /** Nothing visited yet, or standing on a complete option. */
    ghost predicate Valid()
      reads this
    {
      first || pos + 4 + curLen <= |payload|
    }

    constructor (payload: seq<byte>)
      ensures Valid() && this.payload == payload && Rest() == payload
    {
      this.payload := payload;
      pos, curType, curLen, first := 0, 0, 0, true;
    }

    /** Advance: 1 = positioned on the next option, 0 = clean end, -1 = malformed. */
    method Next() returns (r: int)
      requires Valid()
      modifies this
      ensures r == (if old(Rest()) == [] then 0 else if Complete(old(Rest())) then 1 else -1)
      ensures r == 1 ==>
                && Valid() && !first
                && curType == Head(old(Rest())).kind && Data() == Head(old(Rest())).data
                && curLen == |Data()| && Rest() == Tail(old(Rest()))
    {
      var nextPos: nat := if first then 0 else pos + 4 + curLen;
      assert Rest() == payload[nextPos..];
      first := false;
      if nextPos == |payload| {
        return 0;
      }
      if nextPos + 4 > |payload| {
        return -1;
      }
      OptionAt(payload, nextPos);
      pos := nextPos;
      curType := Get16(payload[pos..]);
      curLen := Get16(payload[pos + 2..]);
      if pos + 4 + curLen > |payload| {
        return -1;
      }
      return 1;
    }

    /** The bytes of the current option. */
    function Data(): (d: seq<byte>)
      requires pos + 4 + curLen <= |payload|
      reads this
    {
      payload[pos + 4..pos + 4 + curLen]
    }
  }

  /** Walking a payload with the cursor yields exactly its options, in order, or reports it
      malformed. */
  method Options(payload: seq<byte>) returns (r: Option<seq<Opt>>)
    ensures r == Parse(payload)
  {
    var it := new TlvIterator(payload);
    var ts: seq<Opt> := [];
    var more := it.Next();
    ghost var rest := payload;
    while more > 0
      invariant more == (if rest == [] then 0 else if Complete(rest) then 1 else -1)
      invariant more == 1 ==> it.Valid() && !it.first && it.curType == Head(rest).kind
                              && it.Data() == Head(rest).data && it.Rest() == Tail(rest)
      invariant Parse(payload).Some? <==> Parse(rest).Some?
      invariant Parse(rest).Some? ==> Parse(payload).value == ts + Parse(rest).value
      decreases |rest|
    {
      ts := ts + [Opt(it.curType, it.Data())];
      assert Parse(rest).Some? ==> Parse(rest).value == [Head(rest)] + Parse(Tail(rest)).value;
      rest := Tail(rest);
      more := it.Next();
    }
    assert more == 0 ==> ts + [] == ts;
    return if more == 0 then Some(ts) else None;
  }
}
