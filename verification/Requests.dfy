/** What a client writes, in the numbers of the protocol, is read back by the server. */
module Requests {
  import opened Wire
  import opened Msg
  import opened Tlv
  import opened Codec
  import opened Writer
  import opened RoundTrip
  import E = Events

  datatype Request =
    | Hello(name: seq<byte>)
    | Enrol(nodeId: u32, ring: RingId, heartbeat: u32, tieBreaker: TieBreaker)
    | Adjust(beat: Option<u32>, keep: Option<bool>)
    | Report(seqNo: u32, listType: NodeListType, ring: RingId, nodes: NodeList)
    | Attest(seqNo: u32, ring: RingId, nodes: NodeList, result: Heuristics)
    | Quorate(seqNo: u32, quorate: bool, ring: RingId, nodes: NodeList)
    | Tested(seqNo: u32, result: Heuristics)
    | Confirm(seqNo: u32)

  predicate Listing(r: Request) {
    r.Report? || r.Attest? || r.Quorate?
  }

  /** A name that fits one small option, and a list the decoder accepts. */
  predicate Modest(r: Request) {
    (r.Hello? ==> |r.name| <= 48) && (Listing(r) ==> |r.nodes| <= 16)
  }

  function RequestType(r: Request): (t: u16) {
    match r
    case Hello(_) => 0
    case Enrol(_, _, _, _) => 3
    case Adjust(_, _) => 6
    case Report(_, _, _, _) => 10
    case Attest(_, _, _, _) => 10
    case Quorate(_, _, _, _) => 10
    case Tested(_, _) => 16
    case Confirm(_) => 15
  }

  function ResultByte(h: Heuristics): (b: byte) {
    match h
    case HeurUndefined => 0
    case Pass => 1
    case Fail => 2
  }

  function ListTypeByte(t: NodeListType): (b: byte) {
    match t
    case InitialConfig => 0
    case ChangedConfig => 1
    case Membership => 2
    case Quorum => 3
  }

  /** The node id of a tie-breaker is written only in the mode that uses it. */
  function TieBreakerBytes(tb: TieBreaker): (d: seq<byte>) {
    match tb.mode
    case Lowest => [1, 0, 0, 0, 0]
    case Highest => [2, 0, 0, 0, 0]
    case ByNodeId => [3] + Put32(tb.nodeId)
  }

  function RequestOptions(r: Request): (ts: seq<Opt>) {
    match r
    case Hello(name) => [Opt(1, name)]
    case Enrol(id, ring, hb, tb) =>
      [Opt(9, Put32(id))] + [Opt(13, Put32(ring.nodeId) + Put64(ring.sequence))] + [Opt(12, Put32(hb))]
      + [Opt(21, TieBreakerBytes(tb))] + [Opt(11, [0, 1])]
    case Adjust(beat, keep) =>
      (if beat.Some? then [Opt(12, Put32(beat.value))] else [])
      + (if keep.Some? then [Opt(23, [if keep.value then 1 else 0])] else [])
    case Report(n, t, ring, l) => ReportHead(n, t, ring) + ListOptions(l)
    case Attest(n, ring, l, h) => ReportHead(n, Membership, ring) + [Opt(22, [ResultByte(h)])] + ListOptions(l)
    case Quorate(n, q, ring, l) => ReportHead(n, Quorum, ring) + [Opt(20, [if q then 1 else 0])] + ListOptions(l)
    case Tested(n, h) => [Opt(0, Put32(n))] + [Opt(22, [ResultByte(h)])]
    case Confirm(n) => [Opt(0, Put32(n))]
  }

  function ReportHead(n: u32, t: NodeListType, ring: RingId): (ts: seq<Opt>) {
    [Opt(0, Put32(n))] + [Opt(18, [ListTypeByte(t)])] + [Opt(13, Put32(ring.nodeId) + Put64(ring.sequence))]
  }

  /** A tie-breaker as it arrives: without a node id in the modes that have no use for one. */
  function Trimmed(tb: TieBreaker): (r: TieBreaker)
    ensures SameTieBreaker(r, tb)
  {
    if tb.mode == ByNodeId then tb else TieBreaker(tb.mode, 0)
  }

  /** The message the server reads. */
  function Said(r: Request): (m: Decoded) {
    match r
    case Hello(name) => Blank().(clusterName := name)
    case Enrol(id, ring, hb, tb) =>
      Blank().(nodeIdSet := true, nodeId := id, ringSet := true, ring := ring, heartbeatSet := true, heartbeat := hb,
               tieBreakerSet := true, tieBreaker := Trimmed(tb), algorithmSet := true, algorithm := FFSPLIT)
    case Adjust(beat, keep) =>
      var m := if beat.Some? then Blank().(heartbeatSet := true, heartbeat := beat.value) else Blank();
      if keep.Some? then m.(keepActive := Some(if keep.value then 1 else 0)) else m
    case Report(n, t, ring, l) => Listed(n, t, ring).(nodes := l)
    case Attest(n, ring, l, h) => Listed(n, Membership, ring).(heuristics := h, nodes := l)
    case Quorate(n, q, ring, l) => Listed(n, Quorum, ring).(quorate := Some(if q then 1 else 0), nodes := l)
    case Tested(n, h) => WithSeq(Blank(), true, n).(heuristics := h)
    case Confirm(n) => WithSeq(Blank(), true, n)
  }

  function Listed(n: u32, t: NodeListType, ring: RingId): (m: Decoded) {
    WithSeq(Blank(), true, n).(listType := Some(t), ring := ring, ringSet := true)
  }

  // ---------------------------------------------------------------- sizes

  lemma {:induction false} ListSmall(l: NodeList)
    ensures AllEncodable(ListOptions(l)) && |EncodeAll(ListOptions(l))| <= 160 * |l|
  {
    if l != [] {
      ListSmall(l[..|l| - 1]);
      EncodeMore(ListOptions(l[..|l| - 1]), NodeInfoOption(l[|l| - 1]));
    }
  }

  /** What stands before the node infos. */
  function Preface(r: Request): (ts: seq<Opt>)
    requires Listing(r)
  {
    match r
    case Report(n, t, ring, _) => ReportHead(n, t, ring)
    case Attest(n, ring, _, h) => ReportHead(n, Membership, ring) + [Opt(22, [ResultByte(h)])]
    case Quorate(n, q, ring, _) => ReportHead(n, Quorum, ring) + [Opt(20, [if q then 1 else 0])]
  }

  lemma RequestSmall(r: Request)
    requires Modest(r)
    ensures AllEncodable(RequestOptions(r)) && |EncodeAll(RequestOptions(r))| < 0x1000
  {
    if Listing(r) {
      SmallOptions(Preface(r));
      ListSmall(r.nodes);
      EncodeAllAppend(Preface(r), ListOptions(r.nodes));
    } else {
      SmallOptions(RequestOptions(r));
    }
  }

  // ---------------------------------------------------------------- reading

  lemma NodeIdRead(m: Decoded, n: u32)
    ensures MsgOption(m, Opt(9, Put32(n))) == Some(m.(nodeId := n, nodeIdSet := true))
  {
    GetPut32(n, []);
    assert Put32(n) + [] == Put32(n);
  }

  lemma AlgorithmRead(m: Decoded)
    ensures MsgOption(m, Opt(11, [0, 1])) == Some(m.(algorithm := 1, algorithmSet := true))
  {
  }

  lemma ModeRead(m: Decoded, tb: TieBreaker)
    ensures MsgOption(m, Opt(21, TieBreakerBytes(tb))) == Some(m.(tieBreakerSet := true, tieBreaker := Trimmed(tb)))
  {
    if tb.mode == ByNodeId {
      GetPut32(tb.nodeId, []);
      assert TieBreakerBytes(tb)[1..] == Put32(tb.nodeId) + [];
    } else {
      assert Get32(TieBreakerBytes(tb)[1..]) == 0;
    }
  }

  lemma ResultRead(m: Decoded, h: Heuristics)
    ensures MsgOption(m, Opt(22, [ResultByte(h)])) == Some(m.(heuristics := h))
  {
  }

  lemma QuorateRead(m: Decoded, q: bool)
    ensures MsgOption(m, Opt(20, [if q then 1 else 0])) == Some(m.(quorate := Some(if q then 1 else 0)))
  {
  }

  lemma PlaceRead(m: Decoded, id: u32, ring: RingId, hb: u32)
    ensures FoldOpts(MsgOption, m, [Opt(9, Put32(id))] + [RingOption(ring)] + [U32(OPT_HEARTBEAT, hb)])
            == Some(m.(nodeIdSet := true, nodeId := id, ringSet := true, ring := ring,
                       heartbeatSet := true, heartbeat := hb))
  {
    var m1 := m.(nodeIdSet := true, nodeId := id);
    var m2 := m1.(ringSet := true, ring := ring);
    NodeIdRead(m, id);
    FoldOne(MsgOption, m, Opt(9, Put32(id)));
    RingRead(m1, ring);
    ReadMore(m, [Opt(9, Put32(id))], m1, RingOption(ring), m2);
    HeartbeatRead(m2, hb);
    ReadMore(m, [Opt(9, Put32(id))] + [RingOption(ring)], m2, U32(OPT_HEARTBEAT, hb),
             m2.(heartbeatSet := true, heartbeat := hb));
  }

  lemma EnrolRead(r: Request)
    requires r.Enrol?
    ensures FoldOpts(MsgOption, Blank(), RequestOptions(r)) == Some(Said(r))
  {
    var ts := [Opt(9, Put32(r.nodeId))] + [RingOption(r.ring)] + [U32(OPT_HEARTBEAT, r.heartbeat)];
    var m1 := Blank().(nodeIdSet := true, nodeId := r.nodeId, ringSet := true, ring := r.ring, heartbeatSet := true,
                       heartbeat := r.heartbeat);
    var m2 := m1.(tieBreakerSet := true, tieBreaker := Trimmed(r.tieBreaker));
    var mode := Opt(21, TieBreakerBytes(r.tieBreaker));
    PlaceRead(Blank(), r.nodeId, r.ring, r.heartbeat);
    ModeRead(m1, r.tieBreaker);
    ReadMore(Blank(), ts, m1, mode, m2);
    AlgorithmRead(m2);
    ReadMore(Blank(), ts + [mode], m2, Opt(11, [0, 1]), Said(r));
  }

  lemma AdjustRead(r: Request)
    requires r.Adjust?
    ensures FoldOpts(MsgOption, Blank(), RequestOptions(r)) == Some(Said(r))
  {
    var ts := if r.beat.Some? then [Opt(12, Put32(r.beat.value))] else [];
    var m := if r.beat.Some? then Blank().(heartbeatSet := true, heartbeat := r.beat.value) else Blank();
    if r.beat.Some? {
      HeartbeatRead(Blank(), r.beat.value);
      FoldOne(MsgOption, Blank(), Opt(12, Put32(r.beat.value)));
    }
    assert FoldOpts(MsgOption, Blank(), ts) == Some(m);
    if r.keep.Some? {
      ReadMore(Blank(), ts, m, Opt(23, [if r.keep.value then 1 else 0]), Said(r));
    } else {
      assert ts + [] == ts;
    }
  }

  lemma HeadRead(n: u32, t: NodeListType, ring: RingId)
    ensures FoldOpts(MsgOption, Blank(), ReportHead(n, t, ring)) == Some(Listed(n, t, ring))
  {
    assert ListTypeByte(t) == ListTypeNumber(t);
    ListHeadRead(Blank(), n, t, ring);
  }

  lemma ListingRead(r: Request)
    requires Listing(r) && Modest(r)
    ensures FoldOpts(MsgOption, Blank(), RequestOptions(r)) == Some(Said(r))
  {
    var m := Said(r).(nodes := []);
    match r {
      case Report(n, t, ring, _) => HeadRead(n, t, ring);
      case Attest(n, ring, _, h) =>
        HeadRead(n, Membership, ring);
        ResultRead(Listed(n, Membership, ring), h);
        ReadMore(Blank(), ReportHead(n, Membership, ring), Listed(n, Membership, ring), Opt(22, [ResultByte(h)]), m);
      case Quorate(n, q, ring, _) =>
        HeadRead(n, Quorum, ring);
        QuorateRead(Listed(n, Quorum, ring), q);
        ReadMore(Blank(), ReportHead(n, Quorum, ring), Listed(n, Quorum, ring), Opt(20, [if q then 1 else 0]), m);
    }
    FoldOptsAppend(MsgOption, Blank(), Preface(r), ListOptions(r.nodes));
    ListRead(m, r.nodes);
  }

  lemma RequestRead(r: Request)
    requires Modest(r)
    ensures FoldOpts(MsgOption, Blank(), RequestOptions(r)) == Some(Said(r))
  {
    match r
    case Hello(name) => FoldOne(MsgOption, Blank(), Opt(1, name));
    case Enrol(_, _, _, _) => EnrolRead(r);
    case Adjust(_, _) => AdjustRead(r);
    case Report(_, _, _, _) => ListingRead(r);
    case Attest(_, _, _, _) => ListingRead(r);
    case Quorate(_, _, _, _) => ListingRead(r);
    case Tested(n, h) =>
      var m := WithSeq(Blank(), true, n);
      SeqOptionRead(Blank(), true, n);
      ResultRead(m, h);
      ReadMore(Blank(), [Opt(0, Put32(n))], m, Opt(22, [ResultByte(h)]), Said(r));
    case Confirm(n) => SeqOptionRead(Blank(), true, n);
  }

  /** The bytes of a request. */
  function Bytes(r: Request): (f: seq<byte>)
    requires Modest(r)
  {
    RequestSmall(r);
    Frame(RequestType(r), EncodeAll(RequestOptions(r)))
  }

  /** A request is one whole frame and decodes to what it says. */
  lemma RequestRoundTrip(r: Request)
    requires Modest(r)
    ensures var f := Bytes(r);
            && HEADER_LEN <= |f| < HEADER_LEN + 0x1000 && E.FrameLen(f) == |f| && Get16(f) == RequestType(r)
            && E.Message(f) == Some(Said(r))
  {
    RequestSmall(r);
    FrameParts(RequestType(r), EncodeAll(RequestOptions(r)));
    FoldEncoded(MsgOption, Blank(), RequestOptions(r));
    RequestRead(r);
  }
}
