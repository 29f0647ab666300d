/** Wire-level value types of the qnetd protocol: integer widths, enumerations whose order is the
    wire numbering, ring ids, tie-breakers and node lists. */
module Wire {
  type byte = x: int | 0 <= x < 0x100
  type u16 = x: int | 0 <= x < 0x1_0000
  type u32 = x: int | 0 <= x < 0x1_0000_0000
  type u64 = x: int | 0 <= x < 0x1_0000_0000_0000_0000

  const WORD: int := 0x1_0000_0000

  /** 32-bit increment, with the wrap-around of the source's `uint32_t` counters. */
  function Succ32(x: u32): (r: u32) {
    (x + 1) % WORD
  }

  datatype Option<+T> = None | Some(value: T)

  // Message type numbers. A received type is any 16-bit number.
  const PREINIT: u16 := 0
  const PREINIT_REPLY: u16 := 1
  const STARTTLS: u16 := 2
  const INIT: u16 := 3
  const INIT_REPLY: u16 := 4
  const SERVER_ERROR: u16 := 5
  const SET_OPTION: u16 := 6
  const SET_OPTION_REPLY: u16 := 7
  const ECHO_REQUEST: u16 := 8
  const ECHO_REPLY: u16 := 9
  const NODE_LIST: u16 := 10
  const NODE_LIST_REPLY: u16 := 11
  const ASK_FOR_VOTE: u16 := 12
  const VOTE_INFO: u16 := 14
  const VOTE_INFO_REPLY: u16 := 15
  const HEURISTICS_CHANGE: u16 := 16
  const HEURISTICS_CHANGE_REPLY: u16 := 17

  // Decision algorithm number; a received algorithm is any 16-bit number.
  const FFSPLIT: u16 := 1

  datatype ErrorCode =
    | NoError
    | UnsupportedMessage
    | MessageTooLong
    | PreinitRequired
    | MissingOption
    | UnexpectedMessage
    | ErrorDecoding
    | InternalError
    | InitRequired
    | UnsupportedAlgorithm
    | InvalidHeartbeat
    | UnsupportedAlgorithmMessage
    | TieBreakerDiffers
    | AlgorithmDiffers
    | DuplicateNodeId
    | InvalidConfigList
    | InvalidMembershipList

  datatype NodeListType = InitialConfig | ChangedConfig | Membership | Quorum

  datatype Vote = VoteUndefined | Ack | Nack | AskLater | WaitForReply | NoChange

  datatype Heuristics = HeurUndefined | Pass | Fail

  datatype TieBreakerMode = Lowest | Highest | ByNodeId

  datatype RingId = RingId(nodeId: u32, sequence: u64)

  datatype TieBreaker = TieBreaker(mode: TieBreakerMode, nodeId: u32)

  /** Tie-breaker equality: the node id only matters in `ByNodeId` mode. */
  predicate SameTieBreaker(a: TieBreaker, b: TieBreaker) {
    a.mode == b.mode && (a.mode == ByNodeId ==> a.nodeId == b.nodeId)
  }

  /** `state` is kept as the raw byte: the decoder does not validate it. */
  datatype NodeInfo = NodeInfo(nodeId: u32, dataCenterId: u32, state: byte)

  type NodeList = seq<NodeInfo>

  /** Whether a node list names `id` (the source's `find` is not null). */
  predicate Has(l: NodeList, id: u32) {
    exists k :: 0 <= k < |l| && l[k].nodeId == id
  }

  /** The set of node ids a list names. */
  function Ids(l: NodeList): (r: set<u32>)
    ensures forall id: u32 :: id in r <==> Has(l, id)
  {
    set k | 0 <= k < |l| :: l[k].nodeId
  }

  predicate DuplicateFree(l: NodeList) {
    forall j, k :: 0 <= j < k < |l| ==> l[j].nodeId != l[k].nodeId
  }

  /** `NodeList::find`: a linear scan for the first entry with the given id. */
  method Find(l: NodeList, id: u32) returns (r: Option<NodeInfo>)
    ensures r.Some? <==> Has(l, id)
    ensures r.Some? ==> exists k :: 0 <= k < |l| && l[k] == r.value && r.value.nodeId == id
                                    && forall j :: 0 <= j < k ==> l[j].nodeId != id
  {
    for k := 0 to |l|
      invariant forall j :: 0 <= j < k ==> l[j].nodeId != id
    {
      if l[k].nodeId == id {
        return Some(l[k]);
      }
    }
    return None;
  }
}
