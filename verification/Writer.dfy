/** Writing: options appended to a frame, and the frames the server sends. */
module Writer {
  import opened Wire
  import opened Msg
  import opened Tlv
  import opened Codec

  // ---------------------------------------------------------------- wire numbers

  function VoteNumber(v: Vote): (b: byte)
    ensures b <= 5 && VoteOf(b) == v
  {
    match v
    case VoteUndefined => 0
    case Ack => 1
    case Nack => 2
    case AskLater => 3
    case WaitForReply => 4
    case NoChange => 5
  }

  function ListTypeNumber(t: NodeListType): (b: byte)
    ensures b <= 3 && ListTypeOf(b) == t
  {
    match t
    case InitialConfig => 0
    case ChangedConfig => 1
    case Membership => 2
    case Quorum => 3
  }

  function ModeNumber(m: TieBreakerMode): (b: byte)
    ensures 1 <= b <= 3 && ModeOf(b) == m
  {
    match m
    case Lowest => 1
    case Highest => 2
    case ByNodeId => 3
  }

  function ErrorNumber(e: ErrorCode): (n: u16) {
    match e
    case NoError => 0
    case UnsupportedMessage => 4
    case MessageTooLong => 5
    case PreinitRequired => 6
    case MissingOption => 7
    case UnexpectedMessage => 8
    case ErrorDecoding => 9
    case InternalError => 10
    case InitRequired => 11
    case UnsupportedAlgorithm => 12
    case InvalidHeartbeat => 13
    case UnsupportedAlgorithmMessage => 14
    case TieBreakerDiffers => 15
    case AlgorithmDiffers => 16
    case DuplicateNodeId => 17
    case InvalidConfigList => 18
    case InvalidMembershipList => 19
  }

  // ---------------------------------------------------------------- options by meaning

  function U8(kind: u16, v: byte): (t: Opt) {
    Opt(kind, [v])
  }

  function U16(kind: u16, v: u16): (t: Opt) {
    Opt(kind, Put16(v))
  }

  function U32(kind: u16, v: u32): (t: Opt) {
    Opt(kind, Put32(v))
  }

  function Words(vs: seq<u16>): (b: seq<byte>)
    ensures |b| == 2 * |vs|
  {
    if vs == [] then [] else Words(vs[..|vs| - 1]) + Put16(vs[|vs| - 1])
  }

  lemma WordsMore(vs: seq<u16>, n: nat)
    requires n < |vs|
    ensures Words(vs[..n + 1]) == Words(vs[..n]) + Put16(vs[n])
  {
    assert vs[..n + 1][..n] == vs[..n];
  }

  function RingOption(r: RingId): (t: Opt) {
    Opt(OPT_RING, Put32(r.nodeId) + Put64(r.sequence))
  }

  /** The node id of a tie-breaker is written only in the mode that uses it. */
  function TieBreakerOption(tb: TieBreaker): (t: Opt) {
    Opt(OPT_TIE_BREAKER, [ModeNumber(tb.mode)] + Put32(if tb.mode == ByNodeId then tb.nodeId else 0))
  }

  /** The nested options of a node info; unset parts are left out. */
  function InfoOptions(ni: NodeInfo): (ts: seq<Opt>)
    ensures AllEncodable(ts) && |EncodeAll(ts)| <= 156
  {
    var ts := [U32(OPT_NODE_ID, ni.nodeId)]
              + (if ni.dataCenterId != 0 then [U32(OPT_DATA_CENTER, ni.dataCenterId)] else [])
              + (if ni.state != 0 then [U8(OPT_NODE_STATE, ni.state)] else []);
    SmallOptions(ts);
    ts
  }

  /** Few small options make a small payload. */
  lemma {:induction false} SmallOptions(ts: seq<Opt>)
    requires forall k :: 0 <= k < |ts| ==> |ts[k].data| <= 48
    ensures AllEncodable(ts) && |EncodeAll(ts)| <= 52 * |ts|
  {
    if ts != [] {
      SmallOptions(ts[1..]);
    }
  }

  function NodeInfoOption(ni: NodeInfo): (t: Opt)
    ensures Encodable(t)
  {
    Opt(OPT_NODE_INFO, EncodeAll(InfoOptions(ni)))
  }

  lemma EncodeMore(ts: seq<Opt>, t: Opt)
    requires AllEncodable(ts) && Encodable(t)
    ensures AllEncodable(ts + [t]) && EncodeAll(ts + [t]) == EncodeAll(ts) + Encode(t)
  {
    EncodeAllAppend(ts, [t]);
    assert EncodeAll([t][1..]) == [];
  }

  // ---------------------------------------------------------------- bytes of a long number

  lemma Bytes32(v: u32)
    ensures Put32(v) == [v / 0x100_0000, v / 0x1_0000 % 0x100, v / 0x100 % 0x100, v % 0x100]
  {
    var hi, lo := v / 0x1_0000, v % 0x1_0000;
    var a, b, c, d := hi / 0x100, hi % 0x100, lo / 0x100, lo % 0x100;
    assert v == a * 0x100_0000 + b * 0x1_0000 + c * 0x100 + d;
    assert v / 0x100 == a * 0x1_0000 + b * 0x100 + c && v % 0x100 == d;
    assert v / 0x100_0000 == a && v / 0x100 % 0x100 == c;
  }

  function Scale(n: nat): (r: nat)
    ensures r > 0
  {
    if n == 0 then 1 else 0x100 * Scale(n - 1)
  }

  lemma Scales()
    ensures Scale(0) == 1 && Scale(1) == 0x100 && Scale(2) == 0x1_0000 && Scale(3) == 0x100_0000
    ensures Scale(4) == 0x1_0000_0000 && Scale(5) == 0x100_0000_0000
    ensures Scale(6) == 0x1_0000_0000_0000 && Scale(7) == 0x100_0000_0000_0000
  {
    assert Scale(2) == 0x100 * Scale(1) && Scale(4) == 0x100 * Scale(3) && Scale(6) == 0x100 * Scale(5);
    assert Scale(3) == 0x100 * Scale(2) && Scale(5) == 0x100 * Scale(4) && Scale(7) == 0x100 * Scale(6);
  }

  /** The high and the low word of a long number, shifted. */
  lemma HighByte(v: u64, d: nat)
    requires d == 1 || d == 0x100 || d == 0x1_0000 || d == 0x100_0000
    ensures v / WORD / d == v / (WORD * d)
  {
  }

  lemma DropHigh(a: nat, lo: nat, d: nat)
    requires d == 1 || d == 0x100 || d == 0x1_0000 || d == 0x100_0000
    ensures (a * d + lo) / d == a + lo / d
  {
    if d == 0x100 {
      assert (a * 0x100 + lo) / 0x100 == a + lo / 0x100;
    } else if d == 0x1_0000 {
      assert (a * 0x1_0000 + lo) / 0x1_0000 == a + lo / 0x1_0000;
    } else if d == 0x100_0000 {
      assert (a * 0x100_0000 + lo) / 0x100_0000 == a + lo / 0x100_0000;
    }
  }

  lemma DropMultiple(a: nat, b: nat)
    ensures (0x100 * a + b) % 0x100 == b % 0x100
  {
  }

  lemma LowByte(v: u64, d: nat)
    requires d == 1 || d == 0x100 || d == 0x1_0000 || d == 0x100_0000
    ensures v % WORD / d % 0x100 == v / d % 0x100
  {
    var hi, lo := v / WORD, v % WORD;
    var e := if d == 1 then 0x100_0000 else if d == 0x100 then 0x1_0000 else if d == 0x1_0000 then 0x100 else 1;
    assert v == 0x100 * (hi * e) * d + lo;
    DropHigh(0x100 * (hi * e), lo, d);
    DropMultiple(hi * e, lo / d);
  }

  lemma WordByte(x: u32, i: nat)
    requires i < 4
    ensures Put32(x)[i] == x / Scale(3 - i) % 0x100
  {
    Scales();
    Bytes32(x);
  }

  lemma LongByte(v: u64, i: nat)
    requires i < 8
    ensures Put64(v)[i] == v / Scale(7 - i) % 0x100
  {
    if i < 4 {
      WordByte(v / WORD, i);
      assert Scale(7 - i) == WORD * Scale(3 - i) && Scale(3 - i) in {1, 0x100, 0x1_0000, 0x100_0000} by {
        Scales();
      }
      HighByte(v, Scale(3 - i));
    } else {
      WordByte(v % WORD, i - 4);
      assert Scale(7 - i) in {1, 0x100, 0x1_0000, 0x100_0000} by {
        Scales();
      }
      LowByte(v, Scale(7 - i));
    }
  }

  /** The bytes of a long number, most significant first. */
  method LongBytes(v: u64) returns (t: seq<byte>)
    ensures t == Put64(v)
  {
    t := [];
    for i := 0 to 8
      invariant t == Put64(v)[..i]
    {
      LongByte(v, i);
      t := t + [v / Scale(7 - i) % 0x100];
    }
  }

  // ---------------------------------------------------------------- the writer

  /** Appends options to a buffer. */
  class TlvWriter {
    var buf: seq<byte>
    ghost const head: seq<byte>
    ghost var opts: seq<Opt>

    /** The buffer is what it started with followed by the options added so far. */
    ghost predicate Valid()
      reads this
    {
      AllEncodable(opts) && buf == head + EncodeAll(opts)
    }

    constructor (buf: seq<byte>)
      ensures Valid() && head == buf && opts == []
    {
      this.buf := buf;
      this.head := buf;
      this.opts := [];
    }

    method Add(kind: u16, data: seq<byte>)
      requires Valid() && |data| < 0x1_0000
      modifies this
      ensures Valid() && opts == old(opts) + [Opt(kind, data)]
    {
      EncodeMore(opts, Opt(kind, data));
      buf := buf + Put16(kind);
      buf := buf + Put16(|data|);
      buf := buf + data;
      opts := opts + [Opt(kind, data)];
    }

    method AddU8(kind: u16, v: byte)
      requires Valid()
      modifies this
      ensures Valid() && opts == old(opts) + [U8(kind, v)]
    {
      Add(kind, [v]);
    }

    method AddU16(kind: u16, v: u16)
      requires Valid()
      modifies this
      ensures Valid() && opts == old(opts) + [U16(kind, v)]
    {
      Add(kind, [v / 0x100, v % 0x100]);
    }

    method AddU32(kind: u16, v: u32)
      requires Valid()
      modifies this
      ensures Valid() && opts == old(opts) + [U32(kind, v)]
    {
      Add(kind, Put32(v));
    }

    method AddU16Array(kind: u16, vs: seq<u16>)
      requires Valid() && 2 * |vs| < 0x1_0000
      modifies this
      ensures Valid() && opts == old(opts) + [Opt(kind, Words(vs))]
    {
      EncodeMore(opts, Opt(kind, Words(vs)));
      buf := buf + Put16(kind);
      buf := buf + Put16(2 * |vs|);
      ghost var start := buf;
      for n := 0 to |vs|
        invariant opts == old(opts) && buf == start + Words(vs[..n])
      {
        buf := buf + Put16(vs[n]);
        WordsMore(vs, n);
      }
      assert vs[..|vs|] == vs;
      opts := opts + [Opt(kind, Words(vs))];
    }

    method AddRingId(r: RingId)
      requires Valid()
      modifies this
      ensures Valid() && opts == old(opts) + [RingOption(r)]
    {
      var t := LongBytes(r.sequence);
      Add(OPT_RING, Put32(r.nodeId) + t);
    }

    method AddTieBreaker(tb: TieBreaker)
      requires Valid()
      modifies this
      ensures Valid() && opts == old(opts) + [TieBreakerOption(tb)]
    {
      var id := if tb.mode == ByNodeId then tb.nodeId else 0;
      Add(OPT_TIE_BREAKER, [ModeNumber(tb.mode)] + Put32(id));
    }

    method AddNodeInfo(ni: NodeInfo)
      requires Valid()
      modifies this
      ensures Valid() && opts == old(opts) + [NodeInfoOption(ni)]
    {
      var sub := new TlvWriter([]);
      sub.AddU32(OPT_NODE_ID, ni.nodeId);
      if ni.dataCenterId != 0 {
        sub.AddU32(OPT_DATA_CENTER, ni.dataCenterId);
      }
      if ni.state != 0 {
        sub.AddU8(OPT_NODE_STATE, ni.state);
      }
      assert sub.opts == InfoOptions(ni) && sub.buf == EncodeAll(sub.opts);
      Add(OPT_NODE_INFO, sub.buf);
    }
  }

  // ---------------------------------------------------------------- frames

  const ALL_MESSAGES: seq<u16> := [0, 1, 2, 3, 4, 5, 6, 7, 8, 9, 10, 11, 12, 13, 14, 15, 16, 17]
  const ALL_OPTIONS: seq<u16> :=
    [0, 1, 2, 3, 4, 5, 6, 7, 8, 9, 10, 11, 12, 13, 14, 15, 16, 17, 18, 19, 20, 21, 22, 23]

  function SeqOption(present: bool, n: u32): (ts: seq<Opt>) {
    if present then [U32(OPT_SEQ, n)] else []
  }

  /** The lists advertised to a client that sent its own. */
  function SupportedOptions(messages: bool, options: bool): (ts: seq<Opt>)
    ensures |ts| <= 2 && forall k :: 0 <= k < |ts| ==> |ts[k].data| <= 48
  {
    (if messages then [Opt(OPT_MESSAGES, Words(ALL_MESSAGES))] else [])
    + (if options then [Opt(OPT_OPTIONS, Words(ALL_OPTIONS))] else [])
  }

  function ReplyType(r: Reply): (t: u16) {
    match r
    case PreinitReply(_, _, _, _) => PREINIT_REPLY
    case ServerErrorReply(_, _, _) => SERVER_ERROR
    case InitReply(_, _, _, _, _, _, _) => INIT_REPLY
    case SetOptionReply(_, _, _, _, _, _) => SET_OPTION_REPLY
    case EchoReply(_) => ECHO_REPLY
    case NodeListReply(_, _, _, _) => NODE_LIST_REPLY
    case VoteInfo(_, _, _) => VOTE_INFO
    case HeuristicsChangeReply(_, _, _) => HEURISTICS_CHANGE_REPLY
  }

  /** The options of a reply, in the order they are written. */
  function ReplyOptions(r: Reply): (ts: seq<Opt>) {
    match r
    case PreinitReply(s, n, tls, cert) =>
      SeqOption(s, n) + [U8(OPT_TLS_SUPPORTED, tls)] + [U8(OPT_TLS_CERT, cert)]
    case ServerErrorReply(s, n, code) => SeqOption(s, n) + [U16(OPT_ERROR, ErrorNumber(code))]
    case InitReply(s, n, code, messages, options, maxRequest, maxReply) =>
      SeqOption(s, n) + [U16(OPT_ERROR, ErrorNumber(code))]
      + SupportedOptions(messages, options)
      + [U32(OPT_MAX_REQUEST, maxRequest)] + [U32(OPT_MAX_REPLY, maxReply)] + [Opt(OPT_ALGORITHMS, Words([FFSPLIT]))]
    case SetOptionReply(s, n, hbSet, hb, keepSet, keep) =>
      SeqOption(s, n) + (if hbSet then [U32(OPT_HEARTBEAT, hb)] else [])
      + (if keepSet then [U8(OPT_KEEP_ACTIVE, keep)] else [])
    case EchoReply(_) => []
    case NodeListReply(n, t, ring, vote) =>
      [U32(OPT_SEQ, n)] + [U8(OPT_LIST_TYPE, ListTypeNumber(t))] + [RingOption(ring)] + [U8(OPT_VOTE, VoteNumber(vote))]
    case VoteInfo(n, ring, vote) =>
      [U32(OPT_SEQ, n)] + [U8(OPT_VOTE, VoteNumber(vote))] + [RingOption(ring)]
    case HeuristicsChangeReply(s, n, vote) => SeqOption(s, n) + [U8(OPT_VOTE, VoteNumber(vote))]
  }

  /** A frame: type, payload length, payload. */
  function Frame(t: u16, payload: seq<byte>): (f: seq<byte>)
    requires |payload| < WORD
  {
    Put16(t) + Put32(|payload|) + payload
  }

  method BeginFrame(t: u16) returns (w: TlvWriter)
    ensures fresh(w) && w.Valid() && w.opts == [] && w.head == Put16(t) + Put32(0)
  {
    w := new TlvWriter(Put16(t) + Put32(0));
  }

  /** Patch the length of the payload into the header. */
  method EndFrame(f: seq<byte>, ghost t: u16) returns (r: seq<byte>)
    requires |f| >= HEADER_LEN && |f| - HEADER_LEN < WORD && f[..2] == Put16(t)
    ensures r == Frame(t, f[HEADER_LEN..])
  {
    var len := |f| - HEADER_LEN;
    r := f;
    r := r[2 := len / 0x100_0000];
    r := r[3 := len / 0x1_0000 % 0x100];
    r := r[4 := len / 0x100 % 0x100];
    r := r[5 := len % 0x100];
    Bytes32(len);
  }

  lemma RepliesAreSmall(r: Reply)
    ensures AllEncodable(ReplyOptions(r)) && |EncodeAll(ReplyOptions(r))| < 0x1000
  {
    if r.InitReply? {
      InitReplySmall(r);
    }
    SmallOptions(ReplyOptions(r));
  }

  lemma InitReplySmall(r: Reply)
    requires r.InitReply?
    ensures |ReplyOptions(r)| <= 7 && forall k :: 0 <= k < |ReplyOptions(r)| ==> |ReplyOptions(r)[k].data| <= 48
  {
  }

  /** The bytes of a reply. An echo reply is the request with its type rewritten. */
  function Render(r: Reply): (f: seq<byte>)
    requires r.EchoReply? ==> |r.request| >= HEADER_LEN
  {
    if r.EchoReply? then Put16(ECHO_REPLY) + r.request[2..]
    else
      RepliesAreSmall(r);
      Frame(ReplyType(r), EncodeAll(ReplyOptions(r)))
  }

  // ---------------------------------------------------------------- builders

  method Finish(w: TlvWriter, ghost r: Reply) returns (f: seq<byte>)
    requires w.Valid() && !r.EchoReply? && w.head == Put16(ReplyType(r)) + Put32(0) && w.opts == ReplyOptions(r)
    ensures f == Render(r)
  {
    RepliesAreSmall(r);
    assert w.buf[HEADER_LEN..] == EncodeAll(w.opts) && w.buf[..2] == Put16(ReplyType(r));
    f := EndFrame(w.buf, ReplyType(r));
  }

  method BuildPreinitReply(seqSet: bool, seqNo: u32, tls: byte, cert: byte) returns (f: seq<byte>)
    ensures f == Render(PreinitReply(seqSet, seqNo, tls, cert))
  {
    var w := BeginFrame(PREINIT_REPLY);
    if seqSet {
      w.AddU32(OPT_SEQ, seqNo);
    }
    w.AddU8(OPT_TLS_SUPPORTED, tls);
    w.AddU8(OPT_TLS_CERT, cert);
    f := Finish(w, PreinitReply(seqSet, seqNo, tls, cert));
  }

  method BuildServerError(seqSet: bool, seqNo: u32, code: ErrorCode) returns (f: seq<byte>)
    ensures f == Render(ServerErrorReply(seqSet, seqNo, code))
  {
    var w := BeginFrame(SERVER_ERROR);
    if seqSet {
      w.AddU32(OPT_SEQ, seqNo);
    }
    w.AddU16(OPT_ERROR, ErrorNumber(code));
    f := Finish(w, ServerErrorReply(seqSet, seqNo, code));
  }

  method AddSupported(w: TlvWriter, messages: bool, options: bool)
    requires w.Valid()
    modifies w
    ensures w.Valid() && w.opts == old(w.opts) + SupportedOptions(messages, options)
  {
    if messages {
      w.AddU16Array(OPT_MESSAGES, ALL_MESSAGES);
    }
    if options {
      w.AddU16Array(OPT_OPTIONS, ALL_OPTIONS);
    }
  }

  method BuildInitReply(seqSet: bool, seqNo: u32, code: ErrorCode, messages: bool, options: bool,
                        maxRequest: u32, maxReply: u32)
    returns (f: seq<byte>)
    ensures f == Render(InitReply(seqSet, seqNo, code, messages, options, maxRequest, maxReply))
  {
    var w := BeginFrame(INIT_REPLY);
    if seqSet {
      w.AddU32(OPT_SEQ, seqNo);
    }
    w.AddU16(OPT_ERROR, ErrorNumber(code));
    AddSupported(w, messages, options);
    w.AddU32(OPT_MAX_REQUEST, maxRequest);
    w.AddU32(OPT_MAX_REPLY, maxReply);
    w.AddU16Array(OPT_ALGORITHMS, [FFSPLIT]);
    f := Finish(w, InitReply(seqSet, seqNo, code, messages, options, maxRequest, maxReply));
  }

  method BuildSetOptionReply(seqSet: bool, seqNo: u32, hbSet: bool, hb: u32, keepSet: bool, keep: byte)
    returns (f: seq<byte>)
    ensures f == Render(SetOptionReply(seqSet, seqNo, hbSet, hb, keepSet, keep))
  {
    var w := BeginFrame(SET_OPTION_REPLY);
    if seqSet {
      w.AddU32(OPT_SEQ, seqNo);
    }
    if hbSet {
      w.AddU32(OPT_HEARTBEAT, hb);
    }
    if keepSet {
      w.AddU8(OPT_KEEP_ACTIVE, keep);
    }
    f := Finish(w, SetOptionReply(seqSet, seqNo, hbSet, hb, keepSet, keep));
  }

  method BuildEchoReply(request: seq<byte>) returns (f: seq<byte>)
    requires |request| >= HEADER_LEN
    ensures f == Render(EchoReply(request))
  {
    f := request;
    f := f[0 := ECHO_REPLY / 0x100];
    f := f[1 := ECHO_REPLY % 0x100];
  }

  method BuildNodeListReply(seqNo: u32, t: NodeListType, ring: RingId, vote: Vote) returns (f: seq<byte>)
    ensures f == Render(NodeListReply(seqNo, t, ring, vote))
  {
    var w := BeginFrame(NODE_LIST_REPLY);
    w.AddU32(OPT_SEQ, seqNo);
    w.AddU8(OPT_LIST_TYPE, ListTypeNumber(t));
    w.AddRingId(ring);
    w.AddU8(OPT_VOTE, VoteNumber(vote));
    f := Finish(w, NodeListReply(seqNo, t, ring, vote));
  }

  method BuildVoteInfo(seqNo: u32, ring: RingId, vote: Vote) returns (f: seq<byte>)
    ensures f == Render(VoteInfo(seqNo, ring, vote))
  {
    var w := BeginFrame(VOTE_INFO);
    w.AddU32(OPT_SEQ, seqNo);
    w.AddU8(OPT_VOTE, VoteNumber(vote));
    w.AddRingId(ring);
    f := Finish(w, VoteInfo(seqNo, ring, vote));
  }

  method BuildHeuristicsChangeReply(seqSet: bool, seqNo: u32, vote: Vote) returns (f: seq<byte>)
    ensures f == Render(HeuristicsChangeReply(seqSet, seqNo, vote))
  {
    var w := BeginFrame(HEURISTICS_CHANGE_REPLY);
    if seqSet {
      w.AddU32(OPT_SEQ, seqNo);
    }
    w.AddU8(OPT_VOTE, VoteNumber(vote));
    f := Finish(w, HeuristicsChangeReply(seqSet, seqNo, vote));
  }
}
