/** Messages as the server sees them: the record a received payload decodes to (its type is in the
    frame header, not in the payload), and the frames the server sends. `Codec` maps both to and from bytes. */
module Msg {
  import opened Wire

  datatype Decoded = Decoded(
    seqNumberSet: bool,
    seqNumber: u32,
    clusterName: seq<byte>,
    tlsSupported: Option<byte>,
    tlsClientCertRequired: Option<byte>,
    supportedMessages: bool,
    supportedOptions: bool,
    nodeIdSet: bool,
    nodeId: u32,
    algorithmSet: bool,
    algorithm: u16,
    heartbeatSet: bool,
    heartbeat: u32,
    ringSet: bool,
    ring: RingId,
    configVersion: Option<u64>,
    nodes: NodeList,
    listType: Option<NodeListType>,
    vote: Option<Vote>,
    quorate: Option<byte>,
    tieBreakerSet: bool,
    tieBreaker: TieBreaker,
    heuristics: Heuristics,
    keepActive: Option<byte>)

  /** A freshly constructed record: nothing received yet. */
  function Blank(): (m: Decoded) {
    Decoded(false, 0, [], None, None, false, false, false, 0, false, 0, false, 0,
            false, RingId(0, 0), None, [], None, None, None, false, TieBreaker(Lowest, 0),
            HeurUndefined, None)
  }

  datatype Reply =
    | PreinitReply(seqSet: bool, seqNo: u32, tls: byte, cert: byte)
    | ServerErrorReply(seqSet: bool, seqNo: u32, code: ErrorCode)
    | InitReply(seqSet: bool, seqNo: u32, code: ErrorCode, messages: bool, options: bool,
                maxRequest: u32, maxReply: u32)
    | SetOptionReply(seqSet: bool, seqNo: u32, hbSet: bool, hb: u32, keepSet: bool, keep: byte)
    | EchoReply(request: seq<byte>)
    | NodeListReply(seqNo: u32, listType: NodeListType, ring: RingId, vote: Vote)
    | VoteInfo(seqNo: u32, ring: RingId, vote: Vote)
    | HeuristicsChangeReply(seqSet: bool, seqNo: u32, vote: Vote)
}
