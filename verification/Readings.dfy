/** What a client reads from the frames of the server, by the manual: the type and length in the
    header, and every option with its number, error codes and sizes included. */
module Readings {
  import opened Wire
  import opened Msg
  import opened Tlv
  import opened Codec
  import opened Writer
  import opened RoundTrip
  import opened Manual
  import E = Events

  // ---------------------------------------------------------------- numbers

  /** The reasons a client is given, by number. */
  function ErrorSaid(n: u16): (e: Option<ErrorCode>) {
    match n
    case 0 => Some(NoError)
    case 4 => Some(UnsupportedMessage)
    case 5 => Some(MessageTooLong)
    case 6 => Some(PreinitRequired)
    case 7 => Some(MissingOption)
    case 8 => Some(UnexpectedMessage)
    case 9 => Some(ErrorDecoding)
    case 10 => Some(InternalError)
    case 11 => Some(InitRequired)
    case 12 => Some(UnsupportedAlgorithm)
    case 13 => Some(InvalidHeartbeat)
    case 14 => Some(UnsupportedAlgorithmMessage)
    case 15 => Some(TieBreakerDiffers)
    case 16 => Some(AlgorithmDiffers)
    case 17 => Some(DuplicateNodeId)
    case 18 => Some(InvalidConfigList)
    case 19 => Some(InvalidMembershipList)
    case _ => None
  }

  function TypeSaid(r: Reply): (t: u16) {
    match r
    case PreinitReply(_, _, _, _) => 1
    case InitReply(_, _, _, _, _, _, _) => 4
    case ServerErrorReply(_, _, _) => 5
    case SetOptionReply(_, _, _, _, _, _) => 7
    case EchoReply(_) => 9
    case NodeListReply(_, _, _, _) => 11
    case VoteInfo(_, _, _) => 14
    case HeuristicsChangeReply(_, _, _) => 17
  }

  /** The numbers 0 up to `n`, two bytes each. */
  predicate Counts(b: seq<byte>, n: nat) {
    |b| == 2 * n && forall k :: 0 <= k < n ==> Two(b[2 * k..2 * k + 2]) == k
  }

  /** The option of that kind holds the number `n`, if and only if `present`. */
  predicate Holds(t: Table, kind: u16, present: bool, n: u32) {
    (kind in t <==> present) && (present ==> |t[kind]| == 4 && Four(t[kind]) == n)
  }

  // ---------------------------------------------------------------- reading a reply

  /** The options `t` say what the reply says. */
  predicate Says(t: Table, r: Reply) {
    match r
    case PreinitReply(s, n, tls, cert) => Holds(t, 0, s, n) && Byte(t, 2) == Some(tls) && Byte(t, 3) == Some(cert)
    case ServerErrorReply(s, n, code) => Holds(t, 0, s, n) && 6 in t && ErrorSaid(Short(t, 6)) == Some(code)
    case InitReply(s, n, code, messages, options, maxRequest, maxReply) =>
      && Holds(t, 0, s, n) && 6 in t && ErrorSaid(Short(t, 6)) == Some(code)
      && (4 in t <==> messages) && (messages ==> Counts(t[4], 18))
      && (5 in t <==> options) && (options ==> Counts(t[5], 24))
      && Holds(t, 7, true, maxRequest) && Holds(t, 8, true, maxReply) && 10 in t && t[10] == [0, 1]
    case SetOptionReply(s, n, hbSet, hb, keepSet, keep) =>
      Holds(t, 0, s, n) && Holds(t, 12, hbSet, hb) && Byte(t, 23) == if keepSet then Some(keep) else None
    case EchoReply(_) => false
    case NodeListReply(n, lt, ring, vote) =>
      && Holds(t, 0, true, n) && ListTypeSaid(Byte(t, 18)) == Some(lt)
      && 13 in t && RingSaid(t) == ring && VoteSaid(Byte(t, 19)) == Some(vote)
    case VoteInfo(n, ring, vote) =>
      Holds(t, 0, true, n) && VoteSaid(Byte(t, 19)) == Some(vote) && 13 in t && RingSaid(t) == ring
    case HeuristicsChangeReply(s, n, vote) => Holds(t, 0, s, n) && VoteSaid(Byte(t, 19)) == Some(vote)
  }

  lemma FourPut(v: u32)
    ensures Four(Put32(v)) == v
  {
    GetPut32(v, []);
    assert Put32(v) + [] == Put32(v);
    FourIs(Put32(v));
  }

  lemma EightPut(v: u64)
    ensures Eight(Put64(v)) == v
  {
    GetPut64(v, []);
    assert Put64(v) + [] == Put64(v);
    EightIs(Put64(v));
  }

  lemma TabledMore(ts: seq<Opt>, t: Opt)
    ensures Tabled(ts + [t]) == Tabled(ts)[t.kind := t.data]
  {
    assert (ts + [t])[..|ts|] == ts;
  }

  lemma SeqTabled(present: bool, n: u32)
    ensures Tabled(SeqOption(present, n)) == if present then map[0 := Put32(n)] else map[]
    ensures Holds(Tabled(SeqOption(present, n)), 0, present, n)
  {
    TabledMore([], U32(OPT_SEQ, n));
    assert [] + [U32(OPT_SEQ, n)] == [U32(OPT_SEQ, n)];
    FourPut(n);
  }

  lemma ErrorRead(code: ErrorCode)
    ensures ErrorSaid(Two(Put16(ErrorNumber(code)))) == Some(code)
  {
  }

  lemma {:induction false} WordsAt(vs: seq<u16>, k: nat)
    requires k < |vs|
    ensures Two(Words(vs)[2 * k..2 * k + 2]) == vs[k]
  {
    var init := vs[..|vs| - 1];
    if k == |init| {
      assert Words(vs)[2 * k..2 * k + 2] == Put16(vs[k]);
    } else {
      WordsAt(init, k);
      assert Words(vs)[2 * k..2 * k + 2] == Words(init)[2 * k..2 * k + 2];
    }
  }

  lemma ListsCount()
    ensures Counts(Words(ALL_MESSAGES), 18) && Counts(Words(ALL_OPTIONS), 24)
  {
    forall k | 0 <= k < 18
      ensures Two(Words(ALL_MESSAGES)[2 * k..2 * k + 2]) == k
    {
      WordsAt(ALL_MESSAGES, k);
    }
    forall k | 0 <= k < 24
      ensures Two(Words(ALL_OPTIONS)[2 * k..2 * k + 2]) == k
    {
      WordsAt(ALL_OPTIONS, k);
    }
  }

  // ---------------------------------------------------------------- reply by reply

  lemma RingTabled(t: Table, ring: RingId)
    ensures var t' := t[13 := RingOption(ring).data]; 13 in t' && RingSaid(t') == ring
  {
    var d := RingOption(ring).data;
    assert d[..4] == Put32(ring.nodeId) && d[4..] == Put64(ring.sequence);
    FourPut(ring.nodeId);
    EightPut(ring.sequence);
  }

  lemma PreinitSays(r: Reply)
    requires r.PreinitReply?
    ensures Says(Tabled(ReplyOptions(r)), r)
  {
    var ts := SeqOption(r.seqSet, r.seqNo);
    SeqTabled(r.seqSet, r.seqNo);
    TabledMore(ts, U8(OPT_TLS_SUPPORTED, r.tls));
    TabledMore(ts + [U8(OPT_TLS_SUPPORTED, r.tls)], U8(OPT_TLS_CERT, r.cert));
  }

  lemma ErrorSays(r: Reply)
    requires r.ServerErrorReply?
    ensures Says(Tabled(ReplyOptions(r)), r)
  {
    SeqTabled(r.seqSet, r.seqNo);
    TabledMore(SeqOption(r.seqSet, r.seqNo), U16(OPT_ERROR, ErrorNumber(r.code)));
    ErrorRead(r.code);
  }

  /** An optional option on top of others. */
  lemma TabledMaybe(ts: seq<Opt>, present: bool, t: Opt)
    ensures Tabled(ts + if present then [t] else []) == if present then Tabled(ts)[t.kind := t.data] else Tabled(ts)
  {
    if present {
      TabledMore(ts, t);
    } else {
      assert ts + [] == ts;
    }
  }

  lemma OptionTableSays(r: Reply, t: Table)
    requires r.SetOptionReply? && Holds(t, 0, r.seqSet, r.seqNo) && 12 !in t && 23 !in t
    ensures var t1 := if r.hbSet then t[12 := Put32(r.hb)] else t;
            Says(if r.keepSet then t1[23 := [r.keep]] else t1, r)
  {
    FourPut(r.hb);
  }

  lemma SetOptionSays(r: Reply)
    requires r.SetOptionReply?
    ensures Says(Tabled(ReplyOptions(r)), r)
  {
    var ts := SeqOption(r.seqSet, r.seqNo);
    var us := if r.hbSet then [U32(OPT_HEARTBEAT, r.hb)] else [];
    SeqTabled(r.seqSet, r.seqNo);
    TabledMaybe(ts, r.hbSet, U32(OPT_HEARTBEAT, r.hb));
    TabledMaybe(ts + us, r.keepSet, U8(OPT_KEEP_ACTIVE, r.keep));
    OptionTableSays(r, Tabled(ts));
  }

  lemma NodeListSays(r: Reply)
    requires r.NodeListReply?
    ensures Says(Tabled(ReplyOptions(r)), r)
  {
    var ts := [U32(OPT_SEQ, r.seqNo)] + [U8(OPT_LIST_TYPE, ListTypeNumber(r.listType))];
    SeqTabled(true, r.seqNo);
    TabledMore([U32(OPT_SEQ, r.seqNo)], U8(OPT_LIST_TYPE, ListTypeNumber(r.listType)));
    TabledMore(ts, RingOption(r.ring));
    RingTabled(Tabled(ts), r.ring);
    TabledMore(ts + [RingOption(r.ring)], U8(OPT_VOTE, VoteNumber(r.vote)));
  }

  lemma VoteInfoSays(r: Reply)
    requires r.VoteInfo?
    ensures Says(Tabled(ReplyOptions(r)), r)
  {
    var ts := [U32(OPT_SEQ, r.seqNo)] + [U8(OPT_VOTE, VoteNumber(r.vote))];
    SeqTabled(true, r.seqNo);
    TabledMore([U32(OPT_SEQ, r.seqNo)], U8(OPT_VOTE, VoteNumber(r.vote)));
    TabledMore(ts, RingOption(r.ring));
    RingTabled(Tabled(ts), r.ring);
  }

  lemma HeuristicsSays(r: Reply)
    requires r.HeuristicsChangeReply?
    ensures Says(Tabled(ReplyOptions(r)), r)
  {
    SeqTabled(r.seqSet, r.seqNo);
    TabledMore(SeqOption(r.seqSet, r.seqNo), U8(OPT_VOTE, VoteNumber(r.vote)));
  }

  /** The lists advertised in a table, on top of `t`. */
  function Advertised(t: Table, messages: bool, options: bool): (r: Table) {
    var t1 := if messages then t[4 := Words(ALL_MESSAGES)] else t;
    if options then t1[5 := Words(ALL_OPTIONS)] else t1
  }

  /** The options of an INIT reply up to the advertised lists. */
  lemma InitFront(ts: seq<Opt>, r: Reply)
    requires r.InitReply?
    ensures Tabled(ts + [U16(OPT_ERROR, ErrorNumber(r.code))] + SupportedOptions(r.messages, r.options))
            == Advertised(Tabled(ts)[6 := Put16(ErrorNumber(r.code))], r.messages, r.options)
  {
    var us := ts + [U16(OPT_ERROR, ErrorNumber(r.code))];
    var m := if r.messages then [Opt(OPT_MESSAGES, Words(ALL_MESSAGES))] else [];
    var o := if r.options then [Opt(OPT_OPTIONS, Words(ALL_OPTIONS))] else [];
    TabledMore(ts, U16(OPT_ERROR, ErrorNumber(r.code)));
    TabledMaybe(us, r.messages, Opt(OPT_MESSAGES, Words(ALL_MESSAGES)));
    TabledMaybe(us + m, r.options, Opt(OPT_OPTIONS, Words(ALL_OPTIONS)));
    assert us + SupportedOptions(r.messages, r.options) == us + m + o;
  }

  lemma InitBack(us: seq<Opt>, maxRequest: u32, maxReply: u32)
    ensures Tabled(us + [U32(OPT_MAX_REQUEST, maxRequest)] + [U32(OPT_MAX_REPLY, maxReply)]
                   + [Opt(OPT_ALGORITHMS, Words([FFSPLIT]))])
            == Tabled(us)[7 := Put32(maxRequest)][8 := Put32(maxReply)][10 := [0, 1]]
  {
    var seven, eight := U32(OPT_MAX_REQUEST, maxRequest), U32(OPT_MAX_REPLY, maxReply);
    var ten := Opt(OPT_ALGORITHMS, [0, 1]);
    TabledMore(us, seven);
    TabledMore(us + [seven], eight);
    TabledMore(us + [seven] + [eight], ten);
    assert Words([FFSPLIT]) == [0, 1];
  }

  lemma InitTableSays(r: Reply, t: Table)
    requires r.InitReply? && Holds(t, 0, r.seqSet, r.seqNo) && 4 !in t && 5 !in t
    ensures var t1 := Advertised(t[6 := Put16(ErrorNumber(r.code))], r.messages, r.options);
            Says(t1[7 := Put32(r.maxRequest)][8 := Put32(r.maxReply)][10 := [0, 1]], r)
  {
    ErrorRead(r.code);
    ListsCount();
    FourPut(r.maxRequest);
    FourPut(r.maxReply);
  }

  lemma InitSays(r: Reply)
    requires r.InitReply?
    ensures Says(Tabled(ReplyOptions(r)), r)
  {
    var ts := SeqOption(r.seqSet, r.seqNo);
    SeqTabled(r.seqSet, r.seqNo);
    InitFront(ts, r);
    InitBack(ts + [U16(OPT_ERROR, ErrorNumber(r.code))] + SupportedOptions(r.messages, r.options), r.maxRequest,
             r.maxReply);
    InitTableSays(r, Tabled(ts));
  }

  lemma OptionsSay(r: Reply)
    requires !r.EchoReply?
    ensures Says(Tabled(ReplyOptions(r)), r)
  {
    match r
    case PreinitReply(_, _, _, _) => PreinitSays(r);
    case InitReply(_, _, _, _, _, _, _) => InitSays(r);
    case ServerErrorReply(_, _, _) => ErrorSays(r);
    case SetOptionReply(_, _, _, _, _, _) => SetOptionSays(r);
    case NodeListReply(_, _, _, _) => NodeListSays(r);
    case VoteInfo(_, _, _) => VoteInfoSays(r);
    case HeuristicsChangeReply(_, _, _) => HeuristicsSays(r);
  }

  /** Any frame, as the server cuts and dispatches it. */
  lemma HeaderByManual(f: seq<byte>)
    requires |f| >= 6
    ensures E.FrameLen(f) == 6 + Four(f[2..6]) && Get16(f) == Two(f[..2])
  {
    FourIs(f[2..6]);
    assert f[2..6][2..] == f[4..6] && f[2..][2..][..2] == f[4..6];
  }

  /** Every reply of the server is a frame of its type whose options say what the reply says; an echo is
      the request under another type. */
  lemma ReplySays(r: Reply)
    requires r.EchoReply? ==> |r.request| >= 6
    ensures var f := Render(r);
            && |f| >= 6 && Two(f[..2]) == TypeSaid(r)
            && (r.EchoReply? ==> f[2..] == r.request[2..])
            && (!r.EchoReply? ==>
                  && |f| == 6 + Four(f[2..6]) && Parse(f[6..]).Some?
                  && Says(Tabled(Parse(f[6..]).value), r))
  {
    var f := Render(r);
    if !r.EchoReply? {
      RepliesAreSmall(r);
      ParseEncode(ReplyOptions(r));
      FrameParts(ReplyType(r), EncodeAll(ReplyOptions(r)));
      HeaderByManual(f);
      OptionsSay(r);
    }
  }
}
