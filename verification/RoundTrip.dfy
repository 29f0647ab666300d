/** What is written is read back: node lists, ring ids, votes, sequence numbers, tie-breakers, every
    reply of the server, and echoes. */
module RoundTrip {
  import opened Wire
  import opened Msg
  import opened Tlv
  import opened Codec
  import opened Writer
  import E = Events

  lemma FoldOne<A>(f: (A, Opt) -> Option<A>, a: A, t: Opt)
    ensures FoldOpts(f, a, [t]) == f(a, t)
  {
    match f(a, t)
    case None =>
    case Some(b) => assert FoldOpts(f, b, [t][1..]) == Some(b);
  }

  // ---------------------------------------------------------------- single options

  lemma SeqRead(m: Decoded, n: u32)
    ensures MsgOption(m, U32(OPT_SEQ, n)) == Some(m.(seqNumber := n, seqNumberSet := true))
  {
    GetPut32(n, []);
    assert Put32(n) + [] == Put32(n);
  }

  lemma HeartbeatRead(m: Decoded, n: u32)
    ensures MsgOption(m, U32(OPT_HEARTBEAT, n)) == Some(m.(heartbeat := n, heartbeatSet := true))
  {
    GetPut32(n, []);
    assert Put32(n) + [] == Put32(n);
  }

  lemma RingRead(m: Decoded, r: RingId)
    ensures MsgOption(m, RingOption(r)) == Some(m.(ring := r, ringSet := true))
  {
    var d := RingOption(r).data;
    GetPut32(r.nodeId, Put64(r.sequence));
    assert d[4..] == Put64(r.sequence) + [];
    GetPut64(r.sequence, []);
  }

  lemma VoteRead(m: Decoded, v: Vote)
    ensures MsgOption(m, U8(OPT_VOTE, VoteNumber(v))) == Some(m.(vote := Some(v)))
  {
  }

  /** A tie-breaker survives up to the equality the server uses. */
  lemma TieBreakerRead(m: Decoded, tb: TieBreaker)
    ensures var r := MsgOption(m, TieBreakerOption(tb));
            && r.Some? && r.value.tieBreakerSet && SameTieBreaker(r.value.tieBreaker, tb)
            && r.value == m.(tieBreakerSet := true, tieBreaker := r.value.tieBreaker)
  {
    var id := if tb.mode == ByNodeId then tb.nodeId else 0;
    GetPut32(id, []);
    assert TieBreakerOption(tb).data[1..] == Put32(id) + [];
  }

  // ---------------------------------------------------------------- node lists

  lemma InfoIdRead(a: InfoAcc, n: u32)
    ensures Codec.InfoOption(a, U32(OPT_NODE_ID, n)) == Some(InfoAcc(a.info.(nodeId := n), true))
    ensures Codec.InfoOption(a, U32(OPT_DATA_CENTER, n)) == Some(a.(info := a.info.(dataCenterId := n)))
  {
    GetPut32(n, []);
    assert Put32(n) + [] == Put32(n);
  }

  /** A node info is read back as written; the parts left out are the ones that are zero. */
  lemma InfoRoundTrip(ni: NodeInfo)
    ensures DecodeNodeInfo(EncodeAll(InfoOptions(ni))) == Some(ni)
  {
    var one := [U32(OPT_NODE_ID, ni.nodeId)];
    var two := if ni.dataCenterId != 0 then [U32(OPT_DATA_CENTER, ni.dataCenterId)] else [];
    var three := if ni.state != 0 then [U8(OPT_NODE_STATE, ni.state)] else [];
    var a := InfoAcc(NodeInfo(ni.nodeId, 0, 0), true);
    var b := InfoAcc(NodeInfo(ni.nodeId, ni.dataCenterId, 0), true);
    FoldEncoded(Codec.InfoOption, NoInfo, InfoOptions(ni));
    FoldOptsAppend(Codec.InfoOption, NoInfo, one + two, three);
    FoldOptsAppend(Codec.InfoOption, NoInfo, one, two);
    FoldOne(Codec.InfoOption, NoInfo, U32(OPT_NODE_ID, ni.nodeId));
    InfoIdRead(NoInfo, ni.nodeId);
    FoldOne(Codec.InfoOption, a, U32(OPT_DATA_CENTER, ni.dataCenterId));
    InfoIdRead(a, ni.dataCenterId);
    FoldOne(Codec.InfoOption, b, U8(OPT_NODE_STATE, ni.state));
  }

  function ListOptions(l: NodeList): (ts: seq<Opt>) {
    if l == [] then [] else ListOptions(l[..|l| - 1]) + [NodeInfoOption(l[|l| - 1])]
  }

  lemma {:induction false} ListEncodable(l: NodeList)
    ensures AllEncodable(ListOptions(l))
  {
    if l != [] {
      ListEncodable(l[..|l| - 1]);
    }
  }

  /** A list of at most 16 node infos is read back as written, and a longer one is refused. */
  lemma {:induction false} ListRead(m: Decoded, l: NodeList)
    requires m.nodes == []
    ensures FoldOpts(MsgOption, m, ListOptions(l))
            == if |l| <= MAX_NODES_PER_LIST then Some(m.(nodes := l)) else None
  {
    if l == [] {
      assert m.(nodes := l) == m;
    } else {
      var init, last := l[..|l| - 1], l[|l| - 1];
      ListRead(m, init);
      FoldOptsAppend(MsgOption, m, ListOptions(init), [NodeInfoOption(last)]);
      if |init| <= MAX_NODES_PER_LIST {
        InfoRead(m, m.(nodes := init), last);
        assert init + [last] == l;
      }
    }
  }

  lemma InfoRead(m: Decoded, m1: Decoded, ni: NodeInfo)
    requires m1 == m.(nodes := m1.nodes)
    ensures FoldOpts(MsgOption, m1, [NodeInfoOption(ni)])
            == if |m1.nodes| < MAX_NODES_PER_LIST then Some(m.(nodes := m1.nodes + [ni])) else None
  {
    FoldOne(MsgOption, m1, NodeInfoOption(ni));
    InfoRoundTrip(ni);
  }

  /** A node-list message: written with the writer, it decodes to its list, or not at all when the
      list is too long. */
  lemma ListRoundTrip(l: NodeList)
    ensures AllEncodable(ListOptions(l))
    ensures Decode(EncodeAll(ListOptions(l)))
            == if |l| <= MAX_NODES_PER_LIST then Some(Blank().(nodes := l)) else None
  {
    ListEncodable(l);
    FoldEncoded(MsgOption, Blank(), ListOptions(l));
    ListRead(Blank(), l);
  }

  // ---------------------------------------------------------------- replies

  function WithSeq(m: Decoded, present: bool, n: u32): (r: Decoded) {
    if present then m.(seqNumber := n, seqNumberSet := true) else m
  }

  /** What a client reads from a reply. Error codes and sizes are options the decoder skips. */
  function Meaning(r: Reply): (m: Decoded)
    requires !r.EchoReply?
  {
    var m := Blank();
    match r
    case PreinitReply(s, n, tls, cert) =>
      WithSeq(m, s, n).(tlsSupported := Some(tls), tlsClientCertRequired := Some(cert))
    case ServerErrorReply(s, n, _) => WithSeq(m, s, n)
    case InitReply(s, n, _, messages, options, _, _) =>
      WithSeq(m, s, n).(supportedMessages := messages, supportedOptions := options)
    case SetOptionReply(s, n, hbSet, hb, keepSet, keep) =>
      var m := WithSeq(m, s, n);
      var m := if hbSet then m.(heartbeat := hb, heartbeatSet := true) else m;
      if keepSet then m.(keepActive := Some(keep)) else m
    case NodeListReply(n, t, ring, vote) =>
      WithSeq(m, true, n).(listType := Some(t), ring := ring, ringSet := true, vote := Some(vote))
    case VoteInfo(n, ring, vote) => WithSeq(m, true, n).(vote := Some(vote), ring := ring, ringSet := true)
    case HeuristicsChangeReply(s, n, vote) => WithSeq(m, s, n).(vote := Some(vote))
  }

  lemma SeqOptionRead(m: Decoded, present: bool, n: u32)
    ensures FoldOpts(MsgOption, m, SeqOption(present, n)) == Some(WithSeq(m, present, n))
  {
    SeqRead(m, n);
    FoldOne(MsgOption, m, U32(OPT_SEQ, n));
  }

  /** One more option on top of what has been read. */
  lemma ReadMore(m: Decoded, ts: seq<Opt>, m1: Decoded, t: Opt, m2: Decoded)
    requires FoldOpts(MsgOption, m, ts) == Some(m1) && MsgOption(m1, t) == Some(m2)
    ensures FoldOpts(MsgOption, m, ts + [t]) == Some(m2)
  {
    FoldOptsAppend(MsgOption, m, ts, [t]);
    FoldOne(MsgOption, m1, t);
  }

  lemma VoteInfoRead(m: Decoded, n: u32, ring: RingId, vote: Vote)
    ensures FoldOpts(MsgOption, m, ReplyOptions(VoteInfo(n, ring, vote)))
            == Some(WithSeq(m, true, n).(vote := Some(vote), ring := ring, ringSet := true))
  {
    var m1 := WithSeq(m, true, n);
    var m2 := m1.(vote := Some(vote));
    SeqOptionRead(m, true, n);
    VoteRead(m1, vote);
    ReadMore(m, [U32(OPT_SEQ, n)], m1, U8(OPT_VOTE, VoteNumber(vote)), m2);
    RingRead(m2, ring);
    ReadMore(m, [U32(OPT_SEQ, n)] + [U8(OPT_VOTE, VoteNumber(vote))], m2, RingOption(ring),
             m2.(ring := ring, ringSet := true));
  }

  lemma ListHeadRead(m: Decoded, n: u32, t: NodeListType, ring: RingId)
    ensures FoldOpts(MsgOption, m, [U32(OPT_SEQ, n)] + [U8(OPT_LIST_TYPE, ListTypeNumber(t))] + [RingOption(ring)])
            == Some(WithSeq(m, true, n).(listType := Some(t), ring := ring, ringSet := true))
  {
    var m1 := WithSeq(m, true, n);
    var m2 := m1.(listType := Some(t));
    var ts := [U32(OPT_SEQ, n)];
    SeqOptionRead(m, true, n);
    ReadMore(m, ts, m1, U8(OPT_LIST_TYPE, ListTypeNumber(t)), m2);
    RingRead(m2, ring);
    ReadMore(m, ts + [U8(OPT_LIST_TYPE, ListTypeNumber(t))], m2, RingOption(ring),
             m2.(ring := ring, ringSet := true));
  }

  lemma NodeListReplyRead(m: Decoded, n: u32, t: NodeListType, ring: RingId, vote: Vote)
    ensures FoldOpts(MsgOption, m, ReplyOptions(NodeListReply(n, t, ring, vote)))
            == Some(WithSeq(m, true, n).(listType := Some(t), ring := ring, ringSet := true, vote := Some(vote)))
  {
    var m3 := WithSeq(m, true, n).(listType := Some(t), ring := ring, ringSet := true);
    ListHeadRead(m, n, t, ring);
    VoteRead(m3, vote);
    ReadMore(m, [U32(OPT_SEQ, n)] + [U8(OPT_LIST_TYPE, ListTypeNumber(t))] + [RingOption(ring)], m3,
             U8(OPT_VOTE, VoteNumber(vote)), m3.(vote := Some(vote)));
  }

  lemma PreinitReplyRead(m: Decoded, s: bool, n: u32, tls: byte, cert: byte)
    requires tls <= 2
    ensures FoldOpts(MsgOption, m, ReplyOptions(PreinitReply(s, n, tls, cert)))
            == Some(WithSeq(m, s, n).(tlsSupported := Some(tls), tlsClientCertRequired := Some(cert)))
  {
    var m1 := WithSeq(m, s, n);
    var m2 := m1.(tlsSupported := Some(tls));
    SeqOptionRead(m, s, n);
    ReadMore(m, SeqOption(s, n), m1, U8(OPT_TLS_SUPPORTED, tls), m2);
    ReadMore(m, SeqOption(s, n) + [U8(OPT_TLS_SUPPORTED, tls)], m2, U8(OPT_TLS_CERT, cert),
             m2.(tlsClientCertRequired := Some(cert)));
  }

  lemma SetOptionReplyRead(m: Decoded, s: bool, n: u32, hbSet: bool, hb: u32, keepSet: bool, keep: byte)
    ensures var m1 := WithSeq(m, s, n);
            var m2 := if hbSet then m1.(heartbeat := hb, heartbeatSet := true) else m1;
            FoldOpts(MsgOption, m, ReplyOptions(SetOptionReply(s, n, hbSet, hb, keepSet, keep)))
            == Some(if keepSet then m2.(keepActive := Some(keep)) else m2)
  {
    var m1 := WithSeq(m, s, n);
    var m2 := if hbSet then m1.(heartbeat := hb, heartbeatSet := true) else m1;
    var ts := SeqOption(s, n);
    SeqOptionRead(m, s, n);
    HeartbeatRead(m1, hb);
    assert ts + [] == ts;
    if hbSet {
      ReadMore(m, ts, m1, U32(OPT_HEARTBEAT, hb), m2);
    }
    var us := ts + (if hbSet then [U32(OPT_HEARTBEAT, hb)] else []);
    assert us + [] == us;
    if keepSet {
      ReadMore(m, us, m2, U8(OPT_KEEP_ACTIVE, keep), m2.(keepActive := Some(keep)));
    }
  }

  lemma SupportedRead(m: Decoded, messages: bool, options: bool)
    requires !m.supportedMessages && !m.supportedOptions
    ensures FoldOpts(MsgOption, m, SupportedOptions(messages, options))
            == Some(m.(supportedMessages := messages, supportedOptions := options))
  {
    var t, u := Opt(OPT_MESSAGES, Words(ALL_MESSAGES)), Opt(OPT_OPTIONS, Words(ALL_OPTIONS));
    var m1 := m.(supportedMessages := messages);
    FoldOptsAppend(MsgOption, m, if messages then [t] else [], if options then [u] else []);
    FoldOne(MsgOption, m, t);
    FoldOne(MsgOption, m1, u);
  }

  /** Options the decoder does not know are skipped. */
  lemma Skipped(m: Decoded, ts: seq<Opt>, m1: Decoded, t: Opt)
    requires FoldOpts(MsgOption, m, ts) == Some(m1)
    requires t.kind in {OPT_ERROR, OPT_MAX_REQUEST, OPT_MAX_REPLY, OPT_ALGORITHMS}
    ensures FoldOpts(MsgOption, m, ts + [t]) == Some(m1)
  {
    ReadMore(m, ts, m1, t, m1);
  }

  lemma InitReplyRead(m: Decoded, r: Reply)
    requires r.InitReply? && !m.supportedMessages && !m.supportedOptions
    ensures FoldOpts(MsgOption, m, ReplyOptions(r))
            == Some(WithSeq(m, r.seqSet, r.seqNo).(supportedMessages := r.messages, supportedOptions := r.options))
  {
    var m1 := WithSeq(m, r.seqSet, r.seqNo);
    var m2 := m1.(supportedMessages := r.messages, supportedOptions := r.options);
    SeqOptionRead(m, r.seqSet, r.seqNo);
    var us := SeqOption(r.seqSet, r.seqNo) + [U16(OPT_ERROR, ErrorNumber(r.code))];
    Skipped(m, SeqOption(r.seqSet, r.seqNo), m1, U16(OPT_ERROR, ErrorNumber(r.code)));
    var vs := us + SupportedOptions(r.messages, r.options);
    assert FoldOpts(MsgOption, m, vs) == Some(m2) by {
      SupportedRead(m1, r.messages, r.options);
      FoldOptsAppend(MsgOption, m, us, SupportedOptions(r.messages, r.options));
    }
    SizesSkipped(m, vs, m2, r.maxRequest, r.maxReply);
  }

  lemma SizesSkipped(m: Decoded, vs: seq<Opt>, m2: Decoded, maxRequest: u32, maxReply: u32)
    requires FoldOpts(MsgOption, m, vs) == Some(m2)
    ensures FoldOpts(MsgOption, m, vs + [U32(OPT_MAX_REQUEST, maxRequest)] + [U32(OPT_MAX_REPLY, maxReply)]
                                   + [Opt(OPT_ALGORITHMS, Words([FFSPLIT]))]) == Some(m2)
  {
    var ws := vs + [U32(OPT_MAX_REQUEST, maxRequest)];
    Skipped(m, vs, m2, U32(OPT_MAX_REQUEST, maxRequest));
    Skipped(m, ws, m2, U32(OPT_MAX_REPLY, maxReply));
    Skipped(m, ws + [U32(OPT_MAX_REPLY, maxReply)], m2, Opt(OPT_ALGORITHMS, Words([FFSPLIT])));
  }

  lemma ReplyRead(m: Decoded, r: Reply)
    requires !r.EchoReply? && (r.PreinitReply? ==> r.tls <= 2) && m == Blank()
    ensures FoldOpts(MsgOption, m, ReplyOptions(r)) == Some(Meaning(r))
  {
    match r
    case PreinitReply(s, n, tls, cert) => PreinitReplyRead(m, s, n, tls, cert);
    case ServerErrorReply(s, n, code) =>
      SeqOptionRead(m, s, n);
      ReadMore(m, SeqOption(s, n), WithSeq(m, s, n), U16(OPT_ERROR, ErrorNumber(code)), WithSeq(m, s, n));
    case InitReply(_, _, _, _, _, _, _) => InitReplyRead(m, r);
    case SetOptionReply(s, n, hbSet, hb, keepSet, keep) => SetOptionReplyRead(m, s, n, hbSet, hb, keepSet, keep);
    case NodeListReply(n, t, ring, vote) => NodeListReplyRead(m, n, t, ring, vote);
    case VoteInfo(n, ring, vote) => VoteInfoRead(m, n, ring, vote);
    case HeuristicsChangeReply(s, n, vote) =>
      SeqOptionRead(m, s, n);
      VoteRead(WithSeq(m, s, n), vote);
      ReadMore(m, SeqOption(s, n), WithSeq(m, s, n), U8(OPT_VOTE, VoteNumber(vote)),
               WithSeq(m, s, n).(vote := Some(vote)));
  }

  // ---------------------------------------------------------------- frames

  lemma FrameParts(t: u16, payload: seq<byte>)
    requires |payload| < WORD
    ensures var f := Frame(t, payload);
            && |f| == HEADER_LEN + |payload| && E.FrameLen(f) == |f| && Get16(f) == t && f[HEADER_LEN..] == payload
  {
    var f := Frame(t, payload);
    assert f == Put16(t) + (Put32(|payload|) + payload);
    GetPut16(t, Put32(|payload|) + payload);
    assert f[2..] == Put32(|payload|) + payload;
    GetPut32(|payload|, payload);
  }

  /** Every reply of the server is one whole frame and decodes to what it says. */
  lemma ReplyRoundTrip(r: Reply)
    requires !r.EchoReply? && (r.PreinitReply? ==> r.tls <= 2)
    ensures var f := Render(r);
            && |f| >= HEADER_LEN && E.FrameLen(f) == |f| && Get16(f) == ReplyType(r)
            && E.Message(f) == Some(Meaning(r))
  {
    RepliesAreSmall(r);
    FrameParts(ReplyType(r), EncodeAll(ReplyOptions(r)));
    FoldEncoded(MsgOption, Blank(), ReplyOptions(r));
    ReplyRead(Blank(), r);
  }

  /** An echo reply is a frame of the same length that decodes exactly like its request; only the
      type differs. */
  lemma EchoRoundTrip(request: seq<byte>)
    requires |request| >= HEADER_LEN
    ensures var f := Render(EchoReply(request));
            && |f| == |request| && E.FrameLen(f) == E.FrameLen(request)
            && Get16(f) == ECHO_REPLY && E.Message(f) == E.Message(request)
  {
    var f := Render(EchoReply(request));
    GetPut16(ECHO_REPLY, request[2..]);
    assert f[2..] == request[2..] && f[HEADER_LEN..] == request[HEADER_LEN..];
  }
}
