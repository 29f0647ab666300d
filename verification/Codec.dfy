/** Message payloads from bytes: option by option into a `Decoded` record, node infos nested. */
module Codec {
  import opened Wire
  import opened Msg
  import opened Tlv

  const HEADER_LEN: nat := 6
  const MAX_NODES_PER_LIST: nat := 16

  const OPT_SEQ: u16 := 0
  const OPT_CLUSTER_NAME: u16 := 1
  const OPT_TLS_SUPPORTED: u16 := 2
  const OPT_TLS_CERT: u16 := 3
  const OPT_MESSAGES: u16 := 4
  const OPT_OPTIONS: u16 := 5
  const OPT_ERROR: u16 := 6
  const OPT_MAX_REQUEST: u16 := 7
  const OPT_MAX_REPLY: u16 := 8
  const OPT_NODE_ID: u16 := 9
  const OPT_ALGORITHMS: u16 := 10
  const OPT_ALGORITHM: u16 := 11
  const OPT_HEARTBEAT: u16 := 12
  const OPT_RING: u16 := 13
  const OPT_CONFIG_VERSION: u16 := 14
  const OPT_DATA_CENTER: u16 := 15
  const OPT_NODE_STATE: u16 := 16
  const OPT_NODE_INFO: u16 := 17
  const OPT_LIST_TYPE: u16 := 18
  const OPT_VOTE: u16 := 19
  const OPT_QUORATE: u16 := 20
  const OPT_TIE_BREAKER: u16 := 21
  const OPT_HEURISTICS: u16 := 22
  const OPT_KEEP_ACTIVE: u16 := 23

  // ---------------------------------------------------------------- folding over options

  /** Feed the options of a payload to `f`, in order; fail on the first rejected or malformed
      one. */
  function Fold<A>(f: (A, Opt) -> Option<A>, a: A, p: seq<byte>): (r: Option<A>)
    decreases |p|
  {
    if p == [] then Some(a)
    else if !Complete(p) then None
    else
      match f(a, Head(p))
      case None => None
      case Some(b) => Fold(f, b, Tail(p))
  }

  function FoldOpts<A>(f: (A, Opt) -> Option<A>, a: A, ts: seq<Opt>): (r: Option<A>) {
    if ts == [] then Some(a)
    else
      match f(a, ts[0])
      case None => None
      case Some(b) => FoldOpts(f, b, ts[1..])
  }

  /** Reading written options is folding over them: bytes play no other role. */
  lemma {:induction false} FoldEncoded<A>(f: (A, Opt) -> Option<A>, a: A, ts: seq<Opt>)
    requires AllEncodable(ts)
    ensures Fold(f, a, EncodeAll(ts)) == FoldOpts(f, a, ts)
  {
    if ts != [] {
      HeadEncode(ts[0], EncodeAll(ts[1..]));
      match f(a, ts[0])
      case None =>
      case Some(b) => FoldEncoded(f, b, ts[1..]);
    }
  }

  /** A fold over bytes succeeds only on well-formed payloads, and then is the fold over their
      options. */
  lemma {:induction false} FoldParsed<A>(f: (A, Opt) -> Option<A>, a: A, p: seq<byte>)
    ensures Fold(f, a, p) == if Parse(p).Some? then FoldOpts(f, a, Parse(p).value) else None
    decreases |p|
  {
    if Complete(p) {
      match f(a, Head(p))
      case None =>
      case Some(b) =>
        FoldParsed(f, b, Tail(p));
        if Parse(Tail(p)).Some? {
          assert Parse(p).value[1..] == Parse(Tail(p)).value;
        }
    }
  }

  lemma {:induction false} FoldOptsAppend<A>(f: (A, Opt) -> Option<A>, a: A, ts: seq<Opt>, us: seq<Opt>)
    ensures FoldOpts(f, a, ts + us)
            == match FoldOpts(f, a, ts) { case None => None case Some(b) => FoldOpts(f, b, us) }
  {
    if ts == [] {
      assert ts + us == us;
    } else {
      assert (ts + us)[1..] == ts[1..] + us;
      match f(a, ts[0])
      case None =>
      case Some(b) => FoldOptsAppend(f, b, ts[1..], us);
    }
  }

  // ---------------------------------------------------------------- node infos

  datatype InfoAcc = InfoAcc(info: NodeInfo, haveId: bool)

  function InfoOption(a: InfoAcc, t: Opt): (r: Option<InfoAcc>) {
    if t.kind == OPT_NODE_ID then
      if |t.data| != 4 then None else Some(InfoAcc(a.info.(nodeId := Get32(t.data)), true))
    else if t.kind == OPT_DATA_CENTER then
      if |t.data| != 4 then None else Some(a.(info := a.info.(dataCenterId := Get32(t.data))))
    else if t.kind == OPT_NODE_STATE then
      if |t.data| != 1 then None else Some(a.(info := a.info.(state := t.data[0])))
    else Some(a)
  }

  const NoInfo: InfoAcc := InfoAcc(NodeInfo(0, 0, 0), false)

  /** A nested node info is acceptable when its options are and it names a node. */
  function DecodeNodeInfo(p: seq<byte>): (r: Option<NodeInfo>) {
    match Fold(InfoOption, NoInfo, p)
    case None => None
    case Some(a) => if a.haveId then Some(a.info) else None
  }

  method DecodeNodeInfoLoop(p: seq<byte>) returns (r: Option<NodeInfo>)
    ensures r == DecodeNodeInfo(p)
  {
    var it := new TlvIterator(p);
    var a := NoInfo;
    var more := it.Next();
    ghost var rest := p;
    while more > 0
      invariant more == (if rest == [] then 0 else if Complete(rest) then 1 else -1)
      invariant more == 1 ==> it.Valid() && !it.first && it.curType == Head(rest).kind
                              && it.Data() == Head(rest).data && it.curLen == |it.Data()| && it.Rest() == Tail(rest)
      invariant Fold(InfoOption, a, rest) == Fold(InfoOption, NoInfo, p)
      decreases |rest|
    {
      var d := it.Data();
      if it.curType == OPT_NODE_ID {
        if it.curLen != 4 {
          return None;
        }
        a := InfoAcc(a.info.(nodeId := Get32(d)), true);
      } else if it.curType == OPT_DATA_CENTER {
        if it.curLen != 4 {
          return None;
        }
        a := a.(info := a.info.(dataCenterId := Get32(d)));
      } else if it.curType == OPT_NODE_STATE {
        if it.curLen != 1 {
          return None;
        }
        a := a.(info := a.info.(state := d[0]));
      }
      rest := Tail(rest);
      more := it.Next();
    }
    return if more == 0 && a.haveId then Some(a.info) else None;
  }

  // ---------------------------------------------------------------- whole messages

  function ListTypeOf(b: byte): (t: NodeListType) {
    if b == 0 then InitialConfig else if b == 1 then ChangedConfig else if b == 2 then Membership else Quorum
  }

  function VoteOf(b: byte): (v: Vote) {
    if b == 0 then VoteUndefined else if b == 1 then Ack else if b == 2 then Nack
    else if b == 3 then AskLater else if b == 4 then WaitForReply else NoChange
  }

  function HeuristicsOf(b: byte): (h: Heuristics) {
    if b == 0 then HeurUndefined else if b == 1 then Pass else Fail
  }

  function ModeOf(b: byte): (m: TieBreakerMode) {
    if b == 1 then Lowest else if b == 2 then Highest else ByNodeId
  }

  /** Options about the client and the handshake. */
  function ClientOption(m: Decoded, t: Opt): (r: Option<Decoded>) {
    var d := t.data;
    if t.kind == OPT_SEQ then
      if |d| != 4 then None else Some(m.(seqNumber := Get32(d), seqNumberSet := true))
    else if t.kind == OPT_CLUSTER_NAME then Some(m.(clusterName := d))
    else if t.kind == OPT_TLS_SUPPORTED then
      if |d| != 1 || d[0] > 2 then None else Some(m.(tlsSupported := Some(d[0])))
    else if t.kind == OPT_TLS_CERT then
      if |d| != 1 then None else Some(m.(tlsClientCertRequired := Some(d[0])))
    else if t.kind == OPT_MESSAGES then
      if |d| % 2 != 0 then None else Some(m.(supportedMessages := true))
    else if t.kind == OPT_OPTIONS then
      if |d| % 2 != 0 then None else Some(m.(supportedOptions := true))
    else if t.kind == OPT_NODE_ID then
      if |d| != 4 then None else Some(m.(nodeId := Get32(d), nodeIdSet := true))
    else if t.kind == OPT_ALGORITHM then
      if |d| != 2 then None else Some(m.(algorithm := Get16(d), algorithmSet := true))
    else if t.kind == OPT_HEARTBEAT then
      if |d| != 4 then None else Some(m.(heartbeat := Get32(d), heartbeatSet := true))
    else Some(m)
  }

  /** Options about the cluster's nodes and votes. */
  function ClusterOption(m: Decoded, t: Opt): (r: Option<Decoded>) {
    var d := t.data;
    if t.kind == OPT_RING then
      if |d| != 12 then None else Some(m.(ring := RingId(Get32(d), Get64(d[4..])), ringSet := true))
    else if t.kind == OPT_CONFIG_VERSION then
      if |d| != 8 then None else Some(m.(configVersion := Some(Get64(d))))
    else if t.kind == OPT_NODE_INFO then
      match DecodeNodeInfo(d) {
        case None => None
        case Some(ni) => if |m.nodes| >= MAX_NODES_PER_LIST then None else Some(m.(nodes := m.nodes + [ni]))
      }
    else if t.kind == OPT_LIST_TYPE then
      if |d| != 1 || d[0] > 3 then None else Some(m.(listType := Some(ListTypeOf(d[0]))))
    else if t.kind == OPT_VOTE then
      if |d| != 1 || d[0] > 5 then None else Some(m.(vote := Some(VoteOf(d[0]))))
    else if t.kind == OPT_QUORATE then
      if |d| != 1 || d[0] > 1 then None else Some(m.(quorate := Some(d[0])))
    else if t.kind == OPT_TIE_BREAKER then
      if |d| != 5 || d[0] < 1 || d[0] > 3 then None
      else Some(m.(tieBreaker := TieBreaker(ModeOf(d[0]), Get32(d[1..])), tieBreakerSet := true))
    else if t.kind == OPT_HEURISTICS then
      if |d| != 1 || d[0] > 2 then None else Some(m.(heuristics := HeuristicsOf(d[0])))
    else if t.kind == OPT_KEEP_ACTIVE then
      if |d| != 1 then None else Some(m.(keepActive := Some(d[0])))
    else Some(m)
  }

  /** One option read into the record; unknown options are skipped, known ones must have the right
      length and range. */
  function MsgOption(m: Decoded, t: Opt): (r: Option<Decoded>) {
    if t.kind < OPT_RING then ClientOption(m, t) else ClusterOption(m, t)
  }

  function Decode(payload: seq<byte>): (r: Option<Decoded>) {
    Fold(MsgOption, Blank(), payload)
  }

  /** One option as the decoding loop reads it; only the nested node info is a loop of its own. */
  method ReadOption(m: Decoded, kind: u16, d: seq<byte>) returns (r: Option<Decoded>)
    ensures r == MsgOption(m, Opt(kind, d))
  {
    if kind == OPT_NODE_INFO {
      var info := DecodeNodeInfoLoop(d);
      if info.None? || |m.nodes| >= MAX_NODES_PER_LIST {
        return None;
      }
      return Some(m.(nodes := m.nodes + [info.value]));
    }
    return MsgOption(m, Opt(kind, d));
  }

  method MsgDecode(payload: seq<byte>) returns (r: Option<Decoded>)
    ensures r == Decode(payload)
  {
    var it := new TlvIterator(payload);
    var m := Blank();
    var more := it.Next();
    ghost var rest := payload;
    while more > 0
      invariant more == (if rest == [] then 0 else if Complete(rest) then 1 else -1)
      invariant more == 1 ==> it.Valid() && !it.first && it.curType == Head(rest).kind
                              && it.Data() == Head(rest).data && it.Rest() == Tail(rest)
      invariant Fold(MsgOption, m, rest) == Fold(MsgOption, Blank(), payload)
      decreases |rest|
    {
      var read := ReadOption(m, it.curType, it.Data());
      if read.None? {
        return None;
      }
      m := read.value;
      rest := Tail(rest);
      more := it.Next();
    }
    return if more == 0 then Some(m) else None;
  }
}
