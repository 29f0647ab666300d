/** The protocol state as a value: client sessions, clusters, and the frames and closes handed to
    the transport so far. Receive buffers and pending closes are kept apart, in `Events`. */
module ServerState {
  import opened Wire
  import opened Msg

  const MAX_CLIENTS: nat := 8
  const MAX_CLUSTERS: nat := 2
  const HEARTBEAT_MIN_MS: nat := 1000
  const HEARTBEAT_MAX_MS: nat := 120000
  const PREACTIVE_TIMEOUT_MS: nat := 30000

  datatype Phase = Free | WaitPreinit | WaitInit | Active

  datatype FfClient = Waiting | SendingNack | SendingAck

  datatype FfCluster = WaitingForChange | WaitingForStable | SendingNacks | SendingAcks

  datatype Cluster = Cluster(used: bool, name: seq<byte>, members: int, state: FfCluster,
                             quorate: NodeList)

  const NoCluster: Cluster := Cluster(false, [], 0, WaitingForChange, [])

  /** The voting fields of a session: what it is waiting for, the sequence number of its latest
      vote-info, and the ACK or NACK last sent. */
  datatype Poll = Poll(ff: FfClient, voteSeq: u32, lastAckNack: Vote)

  const NoPoll: Poll := Poll(Waiting, 0, VoteUndefined)

  datatype Session = Session(
    phase: Phase,
    clusterName: seq<byte>,
    cluster: int,
    nodeId: u32,
    ring: RingId,
    heartbeat: u32,
    tieBreaker: TieBreaker,
    algorithm: u16,
    keepActive: bool,
    config: NodeList,
    membership: NodeList,
    heuristics: Heuristics,
    poll: Poll,
    deadline: nat)

  /** A default-constructed session: what `reset` leaves behind. */
  const FreshSession: Session :=
    Session(Free, [], -1, 0, RingId(0, 0), 0, TieBreaker(Lowest, 0), FFSPLIT, true, [], [],
            HeurUndefined, NoPoll, 0)

  /** What the server asked of the transport. */
  datatype Event = Send(slot: nat, frame: Reply) | Close(slot: nat)

  datatype State = State(
    sessions: seq<Session>,
    clusters: seq<Cluster>,
    decisions: u32,
    out: seq<Event>)

  function Initial(): (st: State) {
    State(seq(MAX_CLIENTS, _ => FreshSession), seq(MAX_CLUSTERS, _ => NoCluster), 0, [])
  }

  /** Slot `i` is an active session of cluster `c`. */
  predicate InCluster(st: State, c: int, i: int) {
    0 <= i < |st.sessions| && st.sessions[i].phase == Active && st.sessions[i].cluster == c
  }

  /** The slots of a cluster's active sessions. */
  function Members(st: State, c: int): (r: set<int>) {
    set i | 0 <= i < |st.sessions| && InCluster(st, c, i)
  }

  function SetSession(st: State, slot: nat, s: Session): (r: State)
    requires slot < |st.sessions|
  {
    st.(sessions := st.sessions[slot := s])
  }

  function SetCluster(st: State, c: nat, cl: Cluster): (r: State)
    requires c < |st.clusters|
  {
    st.(clusters := st.clusters[c := cl])
  }

  /** The slots the server closed, in order. */
  function Closes(e: seq<Event>): (r: seq<nat>) {
    if e == [] then []
    else if e[|e| - 1].Close? then Closes(e[..|e| - 1]) + [e[|e| - 1].slot]
    else Closes(e[..|e| - 1])
  }

  function Emit(st: State, slot: nat, frame: Reply): (r: State)
    ensures Closes(r.out) == Closes(st.out)
  {
    var r := st.(out := st.out + [Send(slot, frame)]);
    assert r.out[..|r.out| - 1] == st.out;
    r
  }

  // ---------------------------------------------------------------- trigger views

  /** The triggering client's incoming lists; every other client is seen through its stored
      state. A leaving trigger is excluded from the walk. */
  datatype Trigger = Trigger(slot: nat, leaving: bool, ring: RingId, config: NodeList,
                             membership: NodeList, heuristics: Heuristics)

  /** The trigger names an active session of an existing cluster. */
  predicate ValidTrigger(st: State, tv: Trigger) {
    tv.slot < |st.sessions| && st.sessions[tv.slot].phase == Active
    && 0 <= st.sessions[tv.slot].cluster < |st.clusters|
  }

  function TriggerCluster(st: State, tv: Trigger): (c: nat)
    requires ValidTrigger(st, tv)
  {
    st.sessions[tv.slot].cluster
  }

  predicate Skipped(st: State, tv: Trigger, i: int)
    requires tv.slot < |st.sessions| && 0 <= i < |st.sessions|
  {
    tv.leaving && st.sessions[i].nodeId == st.sessions[tv.slot].nodeId
  }

  /** Slot `i` takes part in the decision triggered by `tv`. */
  predicate Takes(st: State, tv: Trigger, i: int)
    requires ValidTrigger(st, tv)
  {
    InCluster(st, TriggerCluster(st, tv), i) && !Skipped(st, tv, i)
  }

  function EffConfig(st: State, tv: Trigger, i: nat): (l: NodeList)
    requires i < |st.sessions|
  {
    if !tv.leaving && i == tv.slot then tv.config else st.sessions[i].config
  }

  function EffMembership(st: State, tv: Trigger, i: nat): (l: NodeList)
    requires i < |st.sessions|
  {
    if !tv.leaving && i == tv.slot then tv.membership else st.sessions[i].membership
  }

  function EffRing(st: State, tv: Trigger, i: nat): (r: RingId)
    requires i < |st.sessions|
  {
    if !tv.leaving && i == tv.slot then tv.ring else st.sessions[i].ring
  }

  function EffHeuristics(st: State, tv: Trigger, i: nat): (h: Heuristics)
    requires i < |st.sessions|
  {
    if !tv.leaving && i == tv.slot then tv.heuristics else st.sessions[i].heuristics
  }

  /** Node ids are pairwise distinct among the active sessions of a cluster. */
  ghost predicate DistinctIds(st: State, c: int) {
    forall i, j :: InCluster(st, c, i) && InCluster(st, c, j) && i != j
                   ==> st.sessions[i].nodeId != st.sessions[j].nodeId
  }
}
