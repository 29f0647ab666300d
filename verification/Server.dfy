/** The server as the object it is: fixed arrays of sessions and clusters updated in place, loops over
    slots and node lists, and entry points that refine the transition functions proved about
    elsewhere. */
module Server {
  import opened Wire
  import opened Msg
  import opened Codec
  import T = Tlv
  import opened ServerState
  import opened Stability
  import opened Selection
  import V = Votes
  import P = Protocol
  import E = Events
  import R = Runs
  import I = Invariants
  import D = DeadPeers
  import Theorems
  import Profiles

  /** Every id of `l` is in `k`. */
  method Covers(l: NodeList, k: NodeList) returns (r: bool)
    ensures r <==> Ids(l) <= Ids(k)
  {
    for n := 0 to |l|
      invariant forall m :: 0 <= m < n ==> Has(k, l[m].nodeId)
    {
      var found := Find(k, l[n].nodeId);
      if found.None? {
        assert l[n].nodeId in Ids(l);
        return false;
      }
    }
    return true;
  }

  /** Whether the partition holds the node the tie-breaker prefers in the configuration. */
  method IsPreferred(tb: TieBreaker, cfg: NodeList, mem: NodeList) returns (r: bool)
    requires cfg != []
    ensures r <==> Has(mem, PreferredId(tb, cfg))
  {
    var preferred := tb.nodeId;
    if tb.mode != ByNodeId {
      preferred := cfg[0].nodeId;
      for n := 0 to |cfg|
        invariant preferred in Ids(cfg)
        invariant forall m :: 0 <= m < n ==>
                    if tb.mode == Lowest then preferred <= cfg[m].nodeId else preferred >= cfg[m].nodeId
      {
        assert cfg[n].nodeId in Ids(cfg);
        if (tb.mode == Lowest && cfg[n].nodeId < preferred) || (tb.mode == Highest && cfg[n].nodeId > preferred) {
          preferred := cfg[n].nodeId;
        }
      }
      ExtremeIds(cfg);
    }
    var found := Find(mem, preferred);
    return found.Some?;
  }

  class Server {
    const maxRx: u32
    const sessions: array<Session>
    const clusters: array<Cluster>
    const rx: array<seq<byte>>
    const closing: array<bool>
    var pending: seq<nat>
    var processing: bool
    var decisions: u32
    /** What was asked of the transport so far. */
    var out: seq<Event>
    /** The inputs since the server was constructed. */
    ghost var history: seq<R.Input>

    /** The protocol state. */
    ghost function Core(): (st: State)
      reads `decisions, `out, sessions, clusters
    {
      State(sessions[..], clusters[..], decisions, out)
    }

    /** The whole server. */
    ghost function Abs(): (h: E.Host)
      reads `decisions, `out, `pending, `processing, sessions, clusters, rx, closing
    {
      E.Host(Core(), rx[..], closing[..], pending, processing)
    }

    /** The server is where the run of its inputs leads. */
    ghost predicate Valid()
      reads this, sessions, clusters, rx, closing
    {
      Abs() == R.Run(history, maxRx)
    }

    constructor (maxRx: u32)
      ensures fresh(sessions) && fresh(clusters) && fresh(rx) && fresh(closing)
      ensures this.maxRx == maxRx && Abs() == R.Boot() && history == [] && Valid()
    {
      this.maxRx := maxRx;
      sessions := new Session[MAX_CLIENTS](_ => FreshSession);
      clusters := new Cluster[MAX_CLUSTERS](_ => NoCluster);
      rx := new seq<byte>[MAX_CLIENTS](_ => []);
      closing := new bool[MAX_CLIENTS](_ => false);
      pending, processing, decisions, out := [], false, 0, [];
      history := [];
      new;
      assert sessions[..] == seq(MAX_CLIENTS, _ => FreshSession);
      assert clusters[..] == seq(MAX_CLUSTERS, _ => NoCluster);
      assert rx[..] == seq(MAX_CLIENTS, _ => []);
      assert closing[..] == seq(MAX_CLIENTS, _ => false);
    }

    // ---------------------------------------------------------------- trigger views

    /** An active session of the trigger's cluster that the walk does not skip. */
    predicate Participates(tv: Trigger, i: nat)
      requires i < sessions.Length && tv.slot < sessions.Length
      reads sessions
    {
      && sessions[i].phase == Active && sessions[i].cluster == sessions[tv.slot].cluster
      && !(tv.leaving && sessions[i].nodeId == sessions[tv.slot].nodeId)
    }

    function ConfigSeen(tv: Trigger, i: nat): (l: NodeList)
      requires i < sessions.Length
      reads this, sessions, clusters
      ensures l == EffConfig(Core(), tv, i)
    {
      if !tv.leaving && i == tv.slot then tv.config else sessions[i].config
    }

    function MembershipSeen(tv: Trigger, i: nat): (l: NodeList)
      requires i < sessions.Length
      reads this, sessions, clusters
      ensures l == EffMembership(Core(), tv, i)
    {
      if !tv.leaving && i == tv.slot then tv.membership else sessions[i].membership
    }

    function RingSeen(tv: Trigger, i: nat): (r: RingId)
      requires i < sessions.Length
      reads this, sessions, clusters
      ensures r == EffRing(Core(), tv, i)
    {
      if !tv.leaving && i == tv.slot then tv.ring else sessions[i].ring
    }

    function HeuristicsSeen(tv: Trigger, i: nat): (h: Heuristics)
      requires i < sessions.Length
      reads this, sessions, clusters
      ensures h == EffHeuristics(Core(), tv, i)
    {
      if !tv.leaving && i == tv.slot then tv.heuristics else sessions[i].heuristics
    }

    // ---------------------------------------------------------------- stability

    /** All participants have the same configured ids. */
    method SameConfigured(tv: Trigger) returns (r: bool)
      requires ValidTrigger(Core(), tv)
      ensures r <==> SameConfigs(Core(), tv)
    {
      ghost var st := Core();
      for i := 0 to sessions.Length
        invariant forall a, b :: 0 <= a < i && Takes(st, tv, a) && Takes(st, tv, b) ==>
                    Ids(EffConfig(st, tv, a)) <= Ids(EffConfig(st, tv, b))
      {
        if Participates(tv, i) {
          for j := 0 to sessions.Length
            invariant forall b :: 0 <= b < j && Takes(st, tv, b) ==>
                        Ids(EffConfig(st, tv, i)) <= Ids(EffConfig(st, tv, b))
          {
            if i != j && Participates(tv, j) {
              var covers := Covers(ConfigSeen(tv, i), ConfigSeen(tv, j));
              if !covers {
                assert Takes(st, tv, i) && Takes(st, tv, j);
                return false;
              }
            }
          }
        }
      }
      return true;
    }

    /** The first participant with a node id. */
    method FirstParticipant(tv: Trigger, id: u32) returns (r: Option<nat>)
      requires ValidTrigger(Core(), tv)
      ensures r.Some? ==> FirstOfId(Core(), tv, r.value) && sessions[r.value].nodeId == id
      ensures r.None? ==> forall j :: Takes(Core(), tv, j) ==> sessions[j].nodeId != id
    {
      ghost var st := Core();
      for j := 0 to sessions.Length
        invariant forall k :: 0 <= k < j && Takes(st, tv, k) ==> st.sessions[k].nodeId != id
      {
        if sessions[j].nodeId == id && Participates(tv, j) {
          assert Takes(st, tv, j);
          return Some(j);
        }
      }
      return None;
    }

    /** The participants in the membership of `i` have its ring and at least its membership. */
    method PartitionAgrees(tv: Trigger, i: nat) returns (r: bool)
      requires ValidTrigger(Core(), tv) && i < sessions.Length
      ensures r <==> forall j :: FirstOfId(Core(), tv, j) ==> Agrees(Core(), tv, i, j)
    {
      ghost var st := Core();
      var mem := MembershipSeen(tv, i);
      for n := 0 to |mem|
        invariant AgreedUpTo(st, tv, i, mem, n)
      {
        var found := FirstParticipant(tv, mem[n].nodeId);
        if found.Some? {
          var j := found.value;
          assert Has(mem, st.sessions[j].nodeId);
          var covers := Covers(mem, MembershipSeen(tv, j));
          if RingSeen(tv, i) != RingSeen(tv, j) || !covers {
            assert !Agrees(st, tv, i, j);
            return false;
          }
        }
        AgreedMore(st, tv, i, mem, n, found);
      }
      AgreedAll(st, tv, i, mem);
      return true;
    }

    method IsStable(tv: Trigger) returns (r: bool)
      requires ValidTrigger(Core(), tv)
      ensures r <==> Stable(Core(), tv)
    {
      ghost var st := Core();
      var same := SameConfigured(tv);
      if !same {
        return false;
      }
      for i := 0 to sessions.Length
        invariant forall a, j :: 0 <= a < i && Takes(st, tv, a) && FirstOfId(st, tv, j) ==> Agrees(st, tv, a, j)
      {
        assert Participates(tv, i) <==> Takes(st, tv, i);
        if Participates(tv, i) {
          var agrees := PartitionAgrees(tv, i);
          assert Core() == st;
          if !agrees {
            return false;
          }
        }
      }
      return true;
    }

    // ---------------------------------------------------------------- selection

    /** The first active member of a cluster with a node id. */
    method FirstMember(c: int, id: u32) returns (r: Option<nat>)
      ensures r == FirstActive(Core(), c, id, sessions.Length)
    {
      ghost var st := Core();
      for i := 0 to sessions.Length
        invariant FirstActive(st, c, id, i) == None
      {
        if sessions[i].phase == Active && sessions[i].cluster == c && sessions[i].nodeId == id {
          FirstActiveStays(st, c, id, i + 1, sessions.Length);
          return Some(i);
        }
      }
      return None;
    }

    method PartitionStatistics(rep: nat, mem: NodeList, h: Heuristics) returns (t: Stats)
      requires rep < sessions.Length
      ensures t == PartitionStats(Core(), rep, mem, h)
    {
      ghost var st := Core();
      t := Stats(0, 0, 0);
      for n := 0 to |mem|
        invariant t == StatsUpTo(st, rep, mem, n, h)
      {
        var found := FirstMember(sessions[rep].cluster, mem[n].nodeId);
        if found.Some? {
          var eff := if found.value == rep then h else sessions[found.value].heuristics;
          t := Stats(t.clients + 1,
                     t.pass + (if eff == Pass then 1 else 0),
                     t.fail + (if eff == Fail then 1 else 0));
        }
      }
    }

    method KeepsActive(c: int) returns (r: bool)
      ensures r <==> KeepActive(Core(), c)
    {
      ghost var st := Core();
      for i := 0 to sessions.Length
        invariant forall k :: 0 <= k < i && InCluster(st, c, k) ==> st.sessions[k].keepActive
      {
        if sessions[i].phase == Active && sessions[i].cluster == c && !sessions[i].keepActive {
          assert InCluster(st, c, i);
          return false;
        }
      }
      return true;
    }

    method PartitionBetter(tv: Trigger, i: nat, best: Option<nat>, keepActive: bool) returns (r: bool)
      requires ValidTrigger(Core(), tv) && Candidate(Core(), tv, i)
      requires best.Some? ==> best.value < sessions.Length
      requires keepActive <==> KeepActive(Core(), TriggerCluster(Core(), tv))
      ensures r <==> Better(Core(), tv, i, best)
    {
      var cfg, mem := ConfigSeen(tv, i), MembershipSeen(tv, i);
      if |cfg| % 2 != 0 {
        return |mem| > |cfg| / 2;
      }
      if |mem| > |cfg| / 2 {
        return true;
      }
      if |mem| < |cfg| / 2 {
        return false;
      }
      var t := PartitionStatistics(i, mem, HeuristicsSeen(tv, i));
      var u := Stats(0, 0, 0);
      if best.Some? {
        u := PartitionStatistics(best.value, MembershipSeen(tv, best.value), HeuristicsSeen(tv, best.value));
      }
      if Score(t) != Score(u) {
        return Score(t) > Score(u);
      }
      if t.clients != u.clients {
        return t.clients > u.clients;
      }
      if keepActive && best.Some? {
        var quorate := clusters[sessions[tv.slot].cluster].quorate;
        var mine := Find(quorate, sessions[i].nodeId);
        var theirs := Find(quorate, sessions[best.value].nodeId);
        if mine.Some? != theirs.Some? {
          return mine.Some?;
        }
      }
      r := IsPreferred(sessions[i].tieBreaker, cfg, mem);
    }

    method SelectPartition(tv: Trigger) returns (w: Option<NodeList>)
      requires ValidTrigger(Core(), tv)
      ensures w == Winner(Core(), tv)
    {
      ghost var st := Core();
      var keepActive := KeepsActive(sessions[tv.slot].cluster);
      var best: Option<nat> := None;
      for i := 0 to sessions.Length
        invariant best == Select(st, tv, i)
      {
        if Participates(tv, i) && ConfigSeen(tv, i) != [] && MembershipSeen(tv, i) != [] {
          var better := PartitionBetter(tv, i, best, keepActive);
          if better {
            best := Some(i);
          }
        }
      }
      w := if best.None? then None else Some(MembershipSeen(tv, best.value));
    }

    // ---------------------------------------------------------------- casting votes

    /** How many sessions of a cluster are in a voting state. */
    method CountState(c: int, f: FfClient) returns (n: nat)
      ensures n == |InState(Core(), c, f, sessions.Length)|
      ensures n == 0 <==> !V.AnySending(Core(), c, f)
    {
      ghost var st := Core();
      n := 0;
      for i := 0 to sessions.Length
        invariant n == |InState(st, c, f, i)|
      {
        InStateMore(st, c, f, i);
        if sessions[i].phase == Active && sessions[i].cluster == c && sessions[i].poll.ff == f {
          n := n + 1;
        }
      }
      NobodyInState(st, c, f);
    }

    /** Mark every member of the cluster as winner or loser. */
    method MarkStates(tv: Trigger, w: Option<NodeList>)
      requires ValidTrigger(Core(), tv)
      modifies sessions
      ensures Core() == V.UpdateStates(old(Core()), tv, w)
    {
      ghost var st := Core();
      var c := sessions[tv.slot].cluster;
      for i := 0 to sessions.Length
        invariant forall k :: 0 <= k < i ==> sessions[k] == V.Marked(st, tv, w, k)
        invariant forall k :: i <= k < sessions.Length ==> sessions[k] == st.sessions[k]
      {
        var s := sessions[i];
        if s.phase == Active && s.cluster == c {
          if tv.leaving && s.nodeId == sessions[tv.slot].nodeId {
            sessions[i] := s.(poll := s.poll.(ff := Waiting));
          } else {
            var found: Option<NodeInfo> := None;
            if w.Some? {
              found := Find(w.value, s.nodeId);
            }
            sessions[i] := s.(poll := s.poll.(ff := if found.None? then SendingNack else SendingAck));
          }
        }
      }
    }

    /** Send the vote-infos of one kind, in slot order. */
    method SendVotes(tv: Trigger, acks: bool) returns (sent: nat)
      requires ValidTrigger(Core(), tv)
      modifies sessions, `out
      ensures Core() == V.SendVotes(old(Core()), tv, acks)
      ensures sent == 0 <==> !V.AnyDue(old(Core()), tv, acks)
    {
      ghost var st := Core();
      sent := 0;
      for i := 0 to sessions.Length
        invariant PassedTo(st, tv, acks, sessions[..], i)
        invariant out == st.out + V.VoteEvents(st, tv, acks, i)
        invariant sent == 0 <==> NoneDue(st, tv, acks, i)
      {
        var due := VisitSlot(tv, acks, i, st);
        if due {
          sent := sent + 1;
        }
        PassedMore(st, tv, acks, i);
      }
    }

    /** Send slot `i` its vote-info if it is due one. */
    method VisitSlot(tv: Trigger, acks: bool, i: nat, ghost st: State) returns (due: bool)
      requires ValidTrigger(st, tv) && i < sessions.Length && PassedTo(st, tv, acks, sessions[..], i)
      modifies sessions, `out
      ensures due == V.Due(st, tv, acks, i)
      ensures PassedTo(st, tv, acks, sessions[..], i + 1)
      ensures out == old(out) + if due then [Send(i, V.VoteFrame(st, tv, acks, i))] else []
    {
      PassedView(st, tv, acks, sessions[..], i);
      var s := sessions[i];
      due := Participates(tv, i) && s.poll.ff == if acks then SendingAck else SendingNack;
      if due {
        SendVote(i, if !tv.leaving && i == tv.slot then tv.ring else s.ring, if acks then Ack else Nack);
      }
    }

    /** One vote-info, with the next sequence number of its session. */
    method SendVote(i: nat, ring: RingId, v: Vote)
      requires i < sessions.Length
      modifies sessions, `out
      ensures sessions[..] == old(sessions[..])[i := V.Voted(old(sessions[i]), v)]
      ensures out == old(out) + [Send(i, VoteInfo(Succ32(old(sessions[i]).poll.voteSeq), ring, v))]
    {
      var s := sessions[i];
      var n := Succ32(s.poll.voteSeq);
      sessions[i] := s.(poll := Poll(s.poll.ff, n, v));
      out := out + [Send(i, VoteInfo(n, ring, v))];
    }

    method SetState(c: nat, f: FfCluster)
      requires c < clusters.Length
      modifies clusters
      ensures Core() == V.WithState(old(Core()), c, f)
    {
      clusters[c] := clusters[c].(state := f);
    }

    /** Release the ACKs; with none to send the round is over. */
    method ReleaseAcks(tv: Trigger)
      requires ValidTrigger(Core(), tv)
      modifies sessions, clusters, `out
      ensures Core() == V.ReleaseAcks(old(Core()), tv)
    {
      var c := sessions[tv.slot].cluster;
      SetState(c, SendingAcks);
      SameDue(old(Core()), Core(), tv, true);
      var sent := SendVotes(tv, true);
      if sent == 0 {
        SetState(c, WaitingForChange);
      }
    }

    /** One run of the algorithm. */
    method FfsplitDo(tv: Trigger) returns (result: Vote)
      requires ValidTrigger(Core(), tv)
      modifies sessions, clusters, `decisions, `out
      ensures (Core(), result) == V.FfsplitDo(old(Core()), tv)
    {
      ghost var st := Core();
      var c := sessions[tv.slot].cluster;
      SetState(c, WaitingForStable);
      SameDecision(st, Core(), tv);
      var stable := IsStable(tv);
      if !stable {
        return WaitForReply;
      }
      var w := SelectPartition(tv);
      Decide(tv, w, st);
      var sent := SendVotes(tv, false);
      if sent == 0 {
        ReleaseAcks(tv);
      }
      return NoChange;
    }

    /** Count the decision, mark the members and store the winner. */
    method Decide(tv: Trigger, w: Option<NodeList>, ghost st: State)
      requires ValidTrigger(st, tv) && Core() == V.WithState(st, TriggerCluster(st, tv), WaitingForStable)
      modifies sessions, clusters, `decisions
      ensures Core() == V.Mark(st, tv, w)
    {
      var c := sessions[tv.slot].cluster;
      decisions := Succ32(decisions);
      MarkStates(tv, w);
      clusters[c] := clusters[c].(quorate := if w.Some? then w.value else [], state := SendingNacks);
      assert Core().sessions == V.Mark(st, tv, w).sessions;
    }

    // ---------------------------------------------------------------- answering

    method Post(slot: nat, frame: Reply)
      modifies `out
      ensures Core() == Emit(old(Core()), slot, frame)
    {
      out := out + [Send(slot, frame)];
    }

    method SendError(slot: nat, m: Decoded, code: ErrorCode)
      modifies `out
      ensures Core() == P.SendErr(old(Core()), slot, m, code)
    {
      Post(slot, ServerErrorReply(m.seqNumberSet, m.seqNumber, code));
    }

    /** Store a session and answer its peer. */
    method StoreAndPost(slot: nat, s: Session, frame: Reply)
      requires slot < sessions.Length
      modifies sessions, `out
      ensures Core() == P.Answer(old(Core()), slot, s, frame)
    {
      sessions[slot] := s;
      Post(slot, frame);
    }

    // ---------------------------------------------------------------- handshake

    method HandlePreinit(slot: nat, m: Decoded)
      requires P.Open(Core(), slot) && P.Indexed(Core())
      modifies sessions, `out
      ensures Core() == P.HandlePreinit(old(Core()), slot, m)
    {
      if m.clusterName == [] {
        SendError(slot, m, MissingOption);
        return;
      }
      if sessions[slot].phase != WaitPreinit {
        SendError(slot, m, UnexpectedMessage);
        return;
      }
      var s := sessions[slot].(clusterName := m.clusterName, phase := WaitInit);
      StoreAndPost(slot, s, PreinitReply(m.seqNumberSet, m.seqNumber, 0, 0));
    }

    method Reschedule(slot: nat, now: nat)
      requires slot < sessions.Length
      modifies sessions
      ensures sessions[..] == old(sessions[..])[slot := P.Rescheduled(old(sessions[slot]), now)]
    {
      var s := sessions[slot];
      if s.phase == Active && s.heartbeat > 0 {
        sessions[slot] := s.(deadline := now + 3 * s.heartbeat / 2);
      } else if s.phase != Free && s.phase != Active {
        sessions[slot] := s.(deadline := now + PREACTIVE_TIMEOUT_MS);
      }
    }

    /** Check the options of an INIT, storing each as it is accepted. */
    method StoreInit(slot: nat, m: Decoded) returns (code: ErrorCode)
      requires slot < sessions.Length
      modifies sessions
      ensures sessions[..] == old(sessions[..])[slot := P.InitFields(old(sessions[slot]), m).0]
      ensures code == P.InitFields(old(sessions[slot]), m).1
    {
      code := NoError;
      if sessions[slot].phase == Active {
        code := UnexpectedMessage;
      }
      if code == NoError && !m.nodeIdSet {
        code := MissingOption;
      } else {
        sessions[slot] := sessions[slot].(nodeId := m.nodeId);
      }
      if code == NoError && !m.ringSet {
        code := MissingOption;
      } else {
        sessions[slot] := sessions[slot].(ring := m.ring);
      }
      if code == NoError {
        if !m.heartbeatSet {
          code := MissingOption;
        } else if m.heartbeat < HEARTBEAT_MIN_MS || m.heartbeat > HEARTBEAT_MAX_MS {
          code := InvalidHeartbeat;
        } else {
          sessions[slot] := sessions[slot].(heartbeat := m.heartbeat);
        }
      }
      if code == NoError {
        if !m.tieBreakerSet {
          code := MissingOption;
        } else {
          sessions[slot] := sessions[slot].(tieBreaker := m.tieBreaker);
        }
      }
      if code == NoError {
        if !m.algorithmSet {
          code := MissingOption;
        } else if m.algorithm != FFSPLIT {
          code := UnsupportedAlgorithm;
        } else {
          sessions[slot] := sessions[slot].(algorithm := m.algorithm);
        }
      }
    }

    /** The first conflict with an active member of the cluster the session wants to join. */
    method CheckMembers(slot: nat) returns (code: ErrorCode)
      requires slot < sessions.Length
      ensures code == P.FirstConflict(Core(), slot, sessions[slot], 0)
    {
      ghost var st := Core();
      var s := sessions[slot];
      for i := 0 to sessions.Length
        invariant P.FirstConflict(st, slot, s, 0) == P.FirstConflict(st, slot, s, i)
      {
        var o := sessions[i];
        if !(i == slot || o.phase != Active || o.clusterName != s.clusterName) {
          if !SameTieBreaker(s.tieBreaker, o.tieBreaker) {
            return TieBreakerDiffers;
          }
          if s.algorithm != o.algorithm {
            return AlgorithmDiffers;
          }
          if s.nodeId == o.nodeId {
            return DuplicateNodeId;
          }
        }
      }
      return NoError;
    }

    method FindOrCreateCluster(name: seq<byte>) returns (c: int)
      modifies clusters
      ensures var (found, cs) := P.FindOrCreate(old(clusters[..]), name);
              clusters[..] == cs && c == if found.None? then -1 else found.value
    {
      for i := 0 to clusters.Length
        invariant clusters[..] == old(clusters[..])
        invariant P.ClusterNamed(clusters[..], name, 0) == P.ClusterNamed(clusters[..], name, i)
      {
        if clusters[i].used && clusters[i].name == name {
          return i;
        }
      }
      for i := 0 to clusters.Length
        invariant clusters[..] == old(clusters[..])
        invariant P.UnusedCluster(clusters[..], 0) == P.UnusedCluster(clusters[..], i)
      {
        if !clusters[i].used {
          clusters[i] := NoCluster.(used := true, name := name);
          return i;
        }
      }
      return -1;
    }

    /** Admit a session whose options passed into its cluster. */
    method Join(slot: nat, now: nat) returns (code: ErrorCode)
      requires slot < sessions.Length
      modifies sessions, clusters
      ensures var (cs, s, e) := P.Admit(old(clusters[..]), old(sessions[slot]), now);
              clusters[..] == cs && sessions[..] == old(sessions[..])[slot := s] && code == e
    {
      var c := FindOrCreateCluster(sessions[slot].clusterName);
      if c < 0 {
        return InternalError;
      }
      if clusters[c].members == 0 {
        clusters[c] := clusters[c].(state := WaitingForChange, quorate := []);
      }
      clusters[c] := clusters[c].(members := clusters[c].members + 1);
      sessions[slot] := sessions[slot].(cluster := c, phase := Active);
      Reschedule(slot, now);
      return NoError;
    }

    method HandleInit(slot: nat, m: Decoded, now: nat)
      requires P.Open(Core(), slot) && P.Indexed(Core())
      modifies sessions, clusters, `out
      ensures Core() == P.HandleInit(old(Core()), slot, m, now, maxRx)
    {
      ghost var st := Core();
      var code := StoreInit(slot, m);
      if code == NoError {
        ConflictElsewhere(st, Core(), slot, sessions[slot], 0);
        code := CheckMembers(slot);
      }
      if code == NoError {
        code := Join(slot, now);
      }
      Post(slot, InitReply(m.seqNumberSet, m.seqNumber, code, m.supportedMessages, m.supportedOptions, maxRx, maxRx));
      assert sessions[..] == P.HandleInit(st, slot, m, now, maxRx).sessions;
    }

    method HandleSetOption(slot: nat, m: Decoded, now: nat)
      requires P.Open(Core(), slot) && P.Indexed(Core())
      modifies sessions, `out
      ensures Core() == P.HandleSetOption(old(Core()), slot, m, now)
    {
      ghost var st := Core();
      if m.heartbeatSet {
        if m.heartbeat < HEARTBEAT_MIN_MS || m.heartbeat > HEARTBEAT_MAX_MS {
          SendError(slot, m, InvalidHeartbeat);
          return;
        }
        sessions[slot] := sessions[slot].(heartbeat := m.heartbeat);
        Reschedule(slot, now);
      }
      if m.keepActive.Some? {
        sessions[slot] := sessions[slot].(keepActive := m.keepActive.value != 0);
      }
      Post(slot, SetOptionReply(m.seqNumberSet, m.seqNumber, m.heartbeatSet, sessions[slot].heartbeat,
                                m.keepActive.Some?, if sessions[slot].keepActive then 1 else 0));
      assert sessions[..] == st.sessions[slot := P.WithOptions(st.sessions[slot], m, now)];
    }

    // ---------------------------------------------------------------- node lists and votes

    /** Record the outcome for the sender, store its session, and answer the node list. */
    method AnswerList(slot: nat, m: Decoded, s: Session, result: Vote)
      requires slot < sessions.Length && m.listType.Some?
      modifies sessions, `out
      ensures Core() == P.Answer(old(Core()), slot, P.Answered(s, result),
                                 NodeListReply(m.seqNumber, m.listType.value, s.ring, result))
    {
      var poll := s.poll;
      if result == Ack || result == Nack {
        poll := poll.(lastAckNack := result);
      }
      StoreAndPost(slot, s.(poll := poll), NodeListReply(m.seqNumber, m.listType.value, s.ring, result));
    }

    method HandleConfig(slot: nat, m: Decoded)
      requires P.Open(Core(), slot) && P.Indexed(Core()) && sessions[slot].phase == Active
      requires (m.listType == Some(InitialConfig) || m.listType == Some(ChangedConfig)) && m.seqNumberSet
      modifies sessions, clusters, `decisions, `out
      ensures Core() == P.HandleNodeList(old(Core()), slot, m)
    {
      var found := Find(m.nodes, sessions[slot].nodeId);
      if found.None? {
        SendError(slot, m, InvalidConfigList);
        return;
      }
      P.ConfigVoteStep(Core(), slot, m);
      var result := AskLater;
      var s := sessions[slot];
      if !(m.listType == Some(InitialConfig) || s.membership == []) {
        result := FfsplitDo(Trigger(slot, false, s.ring, m.nodes, s.membership, s.heuristics));
      }
      AnswerList(slot, m, sessions[slot].(config := m.nodes), result);
    }

    method HandleMembership(slot: nat, m: Decoded)
      requires P.Open(Core(), slot) && P.Indexed(Core()) && sessions[slot].phase == Active
      requires m.listType == Some(Membership) && m.seqNumberSet
      modifies sessions, clusters, `decisions, `out
      ensures Core() == P.HandleNodeList(old(Core()), slot, m)
    {
      if !m.ringSet {
        SendError(slot, m, MissingOption);
        return;
      }
      var found := Find(m.nodes, sessions[slot].nodeId);
      if found.None? {
        SendError(slot, m, InvalidMembershipList);
        return;
      }
      P.MembershipVoteStep(Core(), slot, m);
      var result := AskLater;
      var s := sessions[slot];
      if s.config != [] {
        result := FfsplitDo(Trigger(slot, false, m.ring, s.config, m.nodes, m.heuristics));
      }
      AnswerList(slot, m, sessions[slot].(membership := m.nodes, ring := m.ring, heuristics := m.heuristics), result);
    }

    method HandleNodeList(slot: nat, m: Decoded)
      requires P.Open(Core(), slot) && P.Indexed(Core()) && sessions[slot].phase == Active
      modifies sessions, clusters, `decisions, `out
      ensures Core() == P.HandleNodeList(old(Core()), slot, m)
    {
      if m.listType.None? || !m.seqNumberSet {
        SendError(slot, m, MissingOption);
        return;
      }
      match m.listType.value
      case InitialConfig => HandleConfig(slot, m);
      case ChangedConfig => HandleConfig(slot, m);
      case Membership => HandleMembership(slot, m);
      case Quorum =>
        if m.quorate.None? {
          SendError(slot, m, MissingOption);
        } else {
          AnswerList(slot, m, sessions[slot], NoChange);
        }
    }

    /** A reply to the latest vote-info: the last NACK reply releases the ACKs, the last ACK reply
        ends the round. */
    method Acknowledge(slot: nat)
      requires slot < sessions.Length && ValidTrigger(Core(), V.StoredTrigger(Core(), slot, false))
      modifies sessions, clusters, `out
      ensures Core() == V.Acknowledge(old(Core()), slot)
    {
      sessions[slot] := sessions[slot].(poll := sessions[slot].poll.(ff := Waiting));
      var s := sessions[slot];
      if clusters[s.cluster].state == SendingNacks {
        var left := CountState(s.cluster, SendingNack);
        if left == 0 {
          ReleaseAcks(Trigger(slot, false, s.ring, s.config, s.membership, s.heuristics));
        }
      } else if clusters[s.cluster].state == SendingAcks {
        var left := CountState(s.cluster, SendingAck);
        if left == 0 {
          SetState(s.cluster, WaitingForChange);
        }
      }
    }

    method HandleVoteInfoReply(slot: nat, m: Decoded)
      requires P.Open(Core(), slot) && P.Indexed(Core()) && sessions[slot].phase == Active
      modifies sessions, clusters, `out
      ensures Core() == P.HandleVoteInfoReply(old(Core()), slot, m)
    {
      if !m.seqNumberSet {
        SendError(slot, m, MissingOption);
        return;
      }
      if m.seqNumber != sessions[slot].poll.voteSeq {
        return;
      }
      Acknowledge(slot);
    }

    method HandleHeuristicsChange(slot: nat, m: Decoded)
      requires P.Open(Core(), slot) && P.Indexed(Core()) && sessions[slot].phase == Active
      modifies sessions, clusters, `decisions, `out
      ensures Core() == P.HandleHeuristicsChange(old(Core()), slot, m)
    {
      if !m.seqNumberSet || m.heuristics == HeurUndefined {
        SendError(slot, m, MissingOption);
        return;
      }
      P.HeuristicsVoteStep(Core(), slot, m.heuristics);
      var result := AskLater;
      var s := sessions[slot];
      if !(s.config == [] || s.membership == []) {
        result := FfsplitDo(Trigger(slot, false, s.ring, s.config, s.membership, m.heuristics));
      }
      s := sessions[slot].(heuristics := m.heuristics);
      var poll := s.poll;
      if result == Ack || result == Nack {
        poll := poll.(lastAckNack := result);
      }
      StoreAndPost(slot, s.(poll := poll), HeuristicsChangeReply(m.seqNumberSet, m.seqNumber, result));
    }

    /** A decoded message, gated by the phase of the session. */
    method HandleMsg(slot: nat, t: u16, m: Decoded, frame: seq<byte>, now: nat)
      requires P.Open(Core(), slot) && P.Indexed(Core())
      modifies sessions, clusters, `decisions, `out
      ensures Core() == P.HandleMsg(old(Core()), slot, t, m, frame, now, maxRx)
    {
      if t != PREINIT && sessions[slot].phase == WaitPreinit {
        SendError(slot, m, PreinitRequired);
      } else if t == PREINIT {
        HandlePreinit(slot, m);
      } else if t == INIT {
        HandleInit(slot, m, now);
      } else if sessions[slot].phase != Active {
        SendError(slot, m, InitRequired);
      } else {
        HandleActive(slot, t, m, frame, now);
      }
    }

    method HandleActive(slot: nat, t: u16, m: Decoded, frame: seq<byte>, now: nat)
      requires P.Open(Core(), slot) && P.Indexed(Core()) && sessions[slot].phase == Active && t != PREINIT && t != INIT
      modifies sessions, clusters, `decisions, `out
      ensures Core() == P.HandleMsg(old(Core()), slot, t, m, frame, now, maxRx)
    {
      if t == SET_OPTION {
        HandleSetOption(slot, m, now);
      } else if t == ECHO_REQUEST {
        Post(slot, EchoReply(frame));
      } else if t == NODE_LIST {
        HandleNodeList(slot, m);
      } else if t == VOTE_INFO_REPLY {
        HandleVoteInfoReply(slot, m);
      } else if t == HEURISTICS_CHANGE {
        HandleHeuristicsChange(slot, m);
      } else if t == ASK_FOR_VOTE {
        SendError(slot, m, UnsupportedAlgorithmMessage);
      } else if t == STARTTLS {
        SendError(slot, m, UnsupportedMessage);
      } else {
        SendError(slot, m, UnexpectedMessage);
      }
    }

    // ---------------------------------------------------------------- closing

    /** The session leaves its cluster: the algorithm runs once more without it. */
    method LeaveCluster(slot: nat)
      requires P.Open(Core(), slot) && P.Indexed(Core())
      modifies sessions, clusters, `decisions, `out
      ensures Core() == E.Leave(old(Core()), slot)
    {
      var s := sessions[slot];
      if s.phase != Active || s.cluster < 0 {
        return;
      }
      P.FfsplitVoteStep(Core(), V.StoredTrigger(Core(), slot, true));
      var result := FfsplitDo(Trigger(slot, true, s.ring, s.config, s.membership, s.heuristics));
      var cl := clusters[s.cluster].(members := clusters[s.cluster].members - 1);
      clusters[s.cluster] := if cl.members <= 0 then NoCluster else cl;
      sessions[slot] := sessions[slot].(cluster := -1);
    }

    /** The session leaves its cluster and its slot is free again. */
    method CloseSession(slot: nat)
      requires E.Ready(Abs()) && P.Open(Core(), slot)
      modifies sessions, clusters, `decisions, `out, rx, closing
      ensures Abs() == E.Wiped(old(Abs()), E.CloseSlot(old(Core()), slot), slot)
    {
      ghost var st := Core();
      E.CloseKeeps(st, slot);
      LeaveCluster(slot);
      sessions[slot] := FreshSession;
      rx[slot] := [];
      closing[slot] := false;
      assert sessions[..] == E.CloseSlot(st, slot).sessions;
    }

    method DrainCloses()
      requires E.Ready(Abs())
      modifies `pending, `processing, `decisions, `out, sessions, clusters, rx, closing
      ensures Abs() == E.DrainCloses(old(Abs()))
    {
      processing := true;
      while pending != []
        invariant E.Ready(Abs()) && E.Drain(Abs()) == E.Drain(old(Abs()).(processing := true))
        decreases |pending|
      {
        DrainLast();
      }
      processing := false;
    }

    method DrainLast()
      requires E.Ready(Abs()) && pending != []
      modifies `pending, `processing, `decisions, `out, sessions, clusters, rx, closing
      ensures Abs() == E.DrainLast(old(Abs()))
    {
      var slot := pending[|pending| - 1];
      pending := pending[..|pending| - 1];
      if sessions[slot].phase != Free {
        CloseSession(slot);
        out := out + [Close(slot)];
      }
    }

    method DisconnectClient(slot: nat)
      requires E.Ready(Abs()) && slot < sessions.Length
      modifies `pending, `processing, `decisions, `out, sessions, clusters, rx, closing
      ensures Abs() == E.Disconnect(old(Abs()), slot)
    {
      if sessions[slot].phase == Free || closing[slot] {
        return;
      }
      closing[slot] := true;
      pending := pending + [slot];
      if !processing {
        DrainCloses();
      }
    }

    // ---------------------------------------------------------------- entry points

    /** Note an input the server has just reacted to from state `h`. */
    ghost method Log(e: R.Input, h: E.Host)
      requires E.Ready(h) && Abs() == R.Step(h, e, maxRx)
      modifies `history
      ensures history == old(history) + [e] && Abs() == old(Abs())
      ensures h == R.Run(old(history), maxRx) ==> Valid()
    {
      R.RunMore(history, e, maxRx);
      history := history + [e];
    }

    method OnConnect(now: nat) returns (slot: int)
      requires E.Ready(Abs())
      modifies `history, sessions, rx, closing
      ensures Abs() == E.OnConnect(old(Abs()), now)
      ensures slot == match E.FreeSlot(old(Core()), 0) { case None => -1 case Some(i) => i }
      ensures history == old(history) + [R.Connect(now)] && (old(Valid()) ==> Valid())
    {
      ghost var h := Abs();
      slot := -1;
      for i := 0 to sessions.Length
        invariant Abs() == h && slot == -1 && E.FreeSlot(h.core, 0) == E.FreeSlot(h.core, i)
      {
        if sessions[i].phase == Free {
          sessions[i] := FreshSession.(phase := WaitPreinit, deadline := now + PREACTIVE_TIMEOUT_MS);
          rx[i] := [];
          closing[i] := false;
          slot := i;
          break;
        }
      }
      Log(R.Connect(now), h);
    }

    method OnDisconnected(slot: int)
      requires E.Ready(Abs())
      modifies `history, `pending, `processing, `decisions, `out, sessions, clusters, rx, closing
      ensures Abs() == E.OnDisconnected(old(Abs()), slot)
      ensures history == old(history) + [R.Disconnected(slot)] && (old(Valid()) ==> Valid())
    {
      ghost var h := Abs();
      if 0 <= slot < sessions.Length && sessions[slot].phase != Free {
        Hangup(slot);
      }
      Log(R.Disconnected(slot), h);
    }

    /** The peer of an open slot is gone. */
    method Hangup(slot: nat)
      requires E.Ready(Abs()) && P.Open(Core(), slot)
      modifies `pending, `processing, `decisions, `out, sessions, clusters, rx, closing
      ensures Abs() == E.OnDisconnected(old(Abs()), slot)
    {
      var was := processing;
      processing := true;
      CloseSession(slot);
      processing := was;
      if !was {
        DrainCloses();
      }
    }

    method HandleFrame(slot: nat, frame: seq<byte>, now: nat)
      requires E.Ready(Abs()) && E.OpenSlot(Abs(), slot) && |frame| >= HEADER_LEN
      modifies `pending, `processing, `decisions, `out, sessions, clusters, rx, closing
      ensures Abs() == E.HandleFrame(old(Abs()), slot, frame, now, maxRx)
    {
      var m := MsgDecode(frame[HEADER_LEN..]);
      if m.None? {
        SendError(slot, Blank(), ErrorDecoding);
        DisconnectClient(slot);
      } else {
        HandleMsg(slot, T.Get16(frame), m.value, frame, now);
      }
    }

    /** One frame at the head of the buffer, handled and removed. */
    method ConsumeFrame(slot: nat, n: nat, now: nat)
      requires E.Ready(Abs()) && E.OpenSlot(Abs(), slot) && processing && !closing[slot]
      requires |rx[slot]| >= HEADER_LEN && n == E.FrameLen(rx[slot]) && |rx[slot]| >= n
      modifies `pending, `processing, `decisions, `out, sessions, clusters, rx, closing
      ensures Abs() == E.ConsumeFrame(old(Abs()), slot, now, maxRx)
    {
      HandleFrame(slot, rx[slot][..n], now);
      rx[slot] := rx[slot][n..];
    }

    /** Buffer received bytes and renew the deadline. */
    method Hear(slot: nat, data: seq<byte>, now: nat)
      requires E.Ready(Abs()) && E.OpenSlot(Abs(), slot)
      modifies `processing, sessions, rx
      ensures Abs() == E.Heard(old(Abs()), slot, data, now)
    {
      rx[slot] := rx[slot] + data;
      Reschedule(slot, now);
      processing := true;
    }

    method OnData(slot: int, data: seq<byte>, now: nat)
      requires E.Ready(Abs())
      modifies `history, `pending, `processing, `decisions, `out, sessions, clusters, rx, closing
      ensures Abs() == E.OnData(old(Abs()), slot, data, now, maxRx)
      ensures history == old(history) + [R.Data(slot, data, now)] && (old(Valid()) ==> Valid())
    {
      ghost var h := Abs();
      if 0 <= slot < sessions.Length && sessions[slot].phase != Free && !closing[slot] {
        Feed(slot, data, now);
      }
      Log(R.Data(slot, data, now), h);
    }

    /** Bytes from the peer of an open slot. */
    method Feed(slot: nat, data: seq<byte>, now: nat)
      requires E.Ready(Abs()) && P.Open(Core(), slot) && !closing[slot]
      modifies `pending, `processing, `decisions, `out, sessions, clusters, rx, closing
      ensures Abs() == E.OnData(old(Abs()), slot, data, now, maxRx)
    {
      ghost var h := Abs();
      Hear(slot, data, now);
      ConsumeFrames(slot, now);
      ghost var consumed := E.FrameLoop(E.Heard(h, slot, data, now), slot, now, maxRx);
      assert Abs() == consumed;
      processing := false;
      assert Abs().(processing := true) == consumed.(processing := true);
      DrainCloses();
      assert Abs() == E.DrainCloses(consumed);
    }

    /** Handle every complete frame of the buffer. */
    method ConsumeFrames(slot: nat, now: nat)
      requires E.Ready(Abs()) && E.OpenSlot(Abs(), slot) && processing
      modifies `pending, `processing, `decisions, `out, sessions, clusters, rx, closing
      ensures Abs() == E.FrameLoop(old(Abs()), slot, now, maxRx)
    {
      ghost var h := Abs();
      while sessions[slot].phase != Free && !closing[slot]
        invariant E.Ready(Abs()) && E.OpenSlot(Abs(), slot) && processing
        invariant E.FrameLoop(Abs(), slot, now, maxRx) == E.FrameLoop(h, slot, now, maxRx)
        decreases |rx[slot]|
      {
        if |rx[slot]| < HEADER_LEN {
          break;
        }
        var len := T.Get32(rx[slot][2..]);
        if len > maxRx {
          SendError(slot, Blank(), MessageTooLong);
          DisconnectClient(slot);
          break;
        }
        if |rx[slot]| < HEADER_LEN + len {
          break;
        }
        ConsumeFrame(slot, HEADER_LEN + len, now);
      }
    }

    method Tick(now: nat)
      requires E.Ready(Abs())
      modifies `history, `pending, `processing, `decisions, `out, sessions, clusters, rx, closing
      ensures Abs() == E.Tick(old(Abs()), now)
      ensures history == old(history) + [R.Clock(now)] && (old(Valid()) ==> Valid())
    {
      ghost var h := Abs();
      Sweep(now);
      Log(R.Clock(now), h);
    }

    /** Disconnect the sessions past their deadline. */
    method Sweep(now: nat)
      requires E.Ready(Abs())
      modifies `pending, `processing, `decisions, `out, sessions, clusters, rx, closing
      ensures Abs() == E.Tick(old(Abs()), now)
    {
      for i := 0 to sessions.Length
        invariant E.Ready(Abs()) && E.TickFrom(Abs(), now, i) == E.Tick(old(Abs()), now)
      {
        var s := sessions[i];
        if !(s.phase == Free || s.deadline == 0 || closing[i]) && now >= s.deadline {
          DisconnectClient(i);
        }
      }
    }

    // ---------------------------------------------------------------- what holds of the object

    /** Between inputs, whatever the peers sent: counts, records and cluster states are exact,
        nothing is pending, and only partial frames are buffered. */
    lemma Sound()
      requires Valid()
      ensures I.Inv(Core(), false) && R.Idle(Abs(), maxRx)
    {
      R.RunInv(history, maxRx);
    }

    /** Two sessions last sent an ACK are on one side. */
    lemma OneSide(c: nat, i: nat, j: nat)
      requires Valid() && R.CleanRun(history, maxRx) && c < MAX_CLUSTERS
      requires clusters[c].state != WaitingForStable && InCluster(Core(), c, i) && InCluster(Core(), c, j)
      requires sessions[i].poll.lastAckNack == Ack && sessions[j].poll.lastAckNack == Ack
      ensures Has(clusters[c].quorate, sessions[i].nodeId) && Has(clusters[c].quorate, sessions[j].nodeId)
      ensures sessions[i].ring == sessions[j].ring
      ensures Ids(sessions[i].membership) == Ids(sessions[j].membership) == Ids(clusters[c].quorate)
    {
      Theorems.BothSidesUnreachable(history, maxRx, c, i, j);
    }

    /** Every open session is what its client announced, and the next tick closes exactly the sessions
        whose clients have been silent for one and a half of the heartbeats they announced, or for
        half a minute before they are members. */
    lemma Silence(now: nat)
      requires Valid()
      ensures D.Ticked(Abs(), E.Tick(Abs(), now), now, 0)
      ensures forall slot :: 0 <= slot < MAX_CLIENTS && E.OpenSlot(Abs(), slot) ==>
                var p := Profiles.ProfileOf(history, maxRx, slot);
                && Profiles.Matches(sessions[slot], p)
                && (E.Expired(Abs(), now, slot) <==>
                    now >= D.PeerOf(history, maxRx, slot).heard + Profiles.Patience(p))
    {
      Profiles.SilenceExact(history, maxRx, now);
      forall slot | 0 <= slot < MAX_CLIENTS && E.OpenSlot(Abs(), slot)
        ensures Profiles.Matches(sessions[slot], Profiles.ProfileOf(history, maxRx, slot))
      {
        Profiles.ProfileExact(history, maxRx, slot);
      }
    }
  }

  // ---------------------------------------------------------------- lemmas about the loops

  function InState(st: State, c: int, f: FfClient, k: nat): (r: set<int>)
    requires k <= |st.sessions|
  {
    set i | 0 <= i < k && InCluster(st, c, i) && st.sessions[i].poll.ff == f
  }

  lemma InStateMore(st: State, c: int, f: FfClient, k: nat)
    requires k < |st.sessions|
    ensures |InState(st, c, f, k + 1)|
            == |InState(st, c, f, k)| + (if InCluster(st, c, k) && st.sessions[k].poll.ff == f then 1 else 0)
  {
    var a, b := InState(st, c, f, k), InState(st, c, f, k + 1);
    assert b == if InCluster(st, c, k) && st.sessions[k].poll.ff == f then a + {k} else a;
  }

  lemma NobodyInState(st: State, c: int, f: FfClient)
    ensures |InState(st, c, f, |st.sessions|)| == 0 <==> !V.AnySending(st, c, f)
  {
    var all := InState(st, c, f, |st.sessions|);
    if V.AnySending(st, c, f) {
      var i :| InCluster(st, c, i) && st.sessions[i].poll.ff == f;
      assert i in all;
    } else {
      assert all == {};
    }
  }

  /** Session `k` after a send pass. */
  function Passed(st: State, tv: Trigger, acks: bool, k: nat): (s: Session)
    requires ValidTrigger(st, tv) && k < |st.sessions|
  {
    if V.Due(st, tv, acks, k) then V.Voted(st.sessions[k], V.Ballot(acks)) else st.sessions[k]
  }

  /** The sessions `ss` when the send pass has come to slot `i`. */
  ghost predicate PassedTo(st: State, tv: Trigger, acks: bool, ss: seq<Session>, i: nat)
    requires ValidTrigger(st, tv)
  {
    && |ss| == |st.sessions|
    && forall k :: 0 <= k < |ss| ==> ss[k] == if k < i then Passed(st, tv, acks, k) else st.sessions[k]
  }

  /** A vote sent to one session does not change who is due another. */
  lemma PassedView(st: State, tv: Trigger, acks: bool, ss: seq<Session>, i: nat)
    requires ValidTrigger(st, tv) && PassedTo(st, tv, acks, ss, i) && i < |ss|
    ensures ss[i] == st.sessions[i]
    ensures ss[tv.slot].nodeId == st.sessions[tv.slot].nodeId && ss[tv.slot].cluster == st.sessions[tv.slot].cluster
  {
  }

  lemma PassedMore(st: State, tv: Trigger, acks: bool, i: nat)
    requires ValidTrigger(st, tv) && i < |st.sessions|
    ensures st.out + V.VoteEvents(st, tv, acks, i + 1)
            == st.out + V.VoteEvents(st, tv, acks, i)
               + if V.Due(st, tv, acks, i) then [Send(i, V.VoteFrame(st, tv, acks, i))] else []
    ensures NoneDue(st, tv, acks, i + 1) <==> NoneDue(st, tv, acks, i) && !V.Due(st, tv, acks, i)
  {
  }

  ghost predicate NoneDue(st: State, tv: Trigger, acks: bool, i: nat)
    requires ValidTrigger(st, tv)
  {
    forall k :: 0 <= k < i ==> !V.Due(st, tv, acks, k)
  }

  /** The participants named by the first `n` entries of `mem` agree with `i`. */
  ghost predicate AgreedUpTo(st: State, tv: Trigger, i: nat, mem: NodeList, n: nat)
    requires ValidTrigger(st, tv) && i < |st.sessions| && n <= |mem|
  {
    forall j, m :: FirstOfId(st, tv, j) && 0 <= m < n && mem[m].nodeId == st.sessions[j].nodeId ==> Agrees(st, tv, i, j)
  }

  lemma AgreedMore(st: State, tv: Trigger, i: nat, mem: NodeList, n: nat, found: Option<nat>)
    requires ValidTrigger(st, tv) && i < |st.sessions| && n < |mem| && AgreedUpTo(st, tv, i, mem, n)
    requires found.Some? ==> FirstOfId(st, tv, found.value) && st.sessions[found.value].nodeId == mem[n].nodeId
                             && Agrees(st, tv, i, found.value)
    requires found.None? ==> forall j :: Takes(st, tv, j) ==> st.sessions[j].nodeId != mem[n].nodeId
    ensures AgreedUpTo(st, tv, i, mem, n + 1)
  {
    forall j | FirstOfId(st, tv, j) && st.sessions[j].nodeId == mem[n].nodeId
      ensures Agrees(st, tv, i, j)
    {
      assert Takes(st, tv, j) && found.Some? && Takes(st, tv, found.value);
      assert j == found.value;
    }
  }

  lemma AgreedAll(st: State, tv: Trigger, i: nat, mem: NodeList)
    requires ValidTrigger(st, tv) && i < |st.sessions| && mem == EffMembership(st, tv, i)
    requires AgreedUpTo(st, tv, i, mem, |mem|)
    ensures forall j :: FirstOfId(st, tv, j) ==> Agrees(st, tv, i, j)
  {
  }

  /** The same sessions and the same quorate partitions. */
  ghost predicate SameView(a: State, b: State) {
    && b.sessions == a.sessions && |b.clusters| == |a.clusters|
    && forall c :: 0 <= c < |a.clusters| ==> b.clusters[c].quorate == a.clusters[c].quorate
  }

  lemma {:induction false} SameFirst(a: State, b: State, c: int, id: u32, k: nat)
    requires b.sessions == a.sessions && k <= |a.sessions|
    ensures FirstActive(b, c, id, k) == FirstActive(a, c, id, k)
  {
    if k > 0 {
      SameFirst(a, b, c, id, k - 1);
    }
  }

  lemma {:induction false} SameStats(a: State, b: State, rep: nat, mem: NodeList, n: nat, h: Heuristics)
    requires b.sessions == a.sessions && rep < |a.sessions| && n <= |mem|
    ensures StatsUpTo(b, rep, mem, n, h) == StatsUpTo(a, rep, mem, n, h)
  {
    if n > 0 {
      SameStats(a, b, rep, mem, n - 1, h);
      SameFirst(a, b, a.sessions[rep].cluster, mem[n - 1].nodeId, |a.sessions|);
    }
  }

  lemma SameBetter(a: State, b: State, tv: Trigger, i: nat, best: Option<nat>)
    requires SameView(a, b) && ValidTrigger(a, tv) && ValidTrigger(b, tv) && Candidate(a, tv, i) && Candidate(b, tv, i)
    requires best.Some? ==> best.value < |a.sessions|
    ensures Better(b, tv, i, best) == Better(a, tv, i, best)
  {
    SameStats(a, b, i, EffMembership(a, tv, i), |EffMembership(a, tv, i)|, EffHeuristics(a, tv, i));
    if best.Some? {
      var mem := EffMembership(a, tv, best.value);
      SameStats(a, b, best.value, mem, |mem|, EffHeuristics(a, tv, best.value));
    }
    assert KeepActive(b, TriggerCluster(b, tv)) <==> KeepActive(a, TriggerCluster(a, tv)) by {
      assert forall i :: InCluster(b, TriggerCluster(a, tv), i) <==> InCluster(a, TriggerCluster(a, tv), i);
    }
  }

  lemma {:induction false} SameSelect(a: State, b: State, tv: Trigger, k: nat)
    requires SameView(a, b) && ValidTrigger(a, tv) && ValidTrigger(b, tv) && k <= |a.sessions|
    ensures Select(b, tv, k) == Select(a, tv, k)
  {
    if k > 0 {
      SameSelect(a, b, tv, k - 1);
      SameNext(a, b, tv, k, Select(a, tv, k - 1));
    }
  }

  lemma SameNext(a: State, b: State, tv: Trigger, k: nat, best: Option<nat>)
    requires SameView(a, b) && ValidTrigger(a, tv) && ValidTrigger(b, tv) && 0 < k <= |a.sessions|
    requires best == Select(a, tv, k - 1) == Select(b, tv, k - 1)
    ensures Select(b, tv, k) == Select(a, tv, k)
  {
    SameTakesOver(a, b, tv, k, best);
    SelectAlike(b, tv, a, tv, k, best);
  }

  lemma SameTakesOver(a: State, b: State, tv: Trigger, k: nat, best: Option<nat>)
    requires SameView(a, b) && ValidTrigger(a, tv) && ValidTrigger(b, tv) && 0 < k <= |a.sessions|
    requires best.Some? ==> best.value < |a.sessions|
    ensures TakesOver(b, tv, k, best) <==> TakesOver(a, tv, k, best)
  {
    SameStep(a, b, tv, k - 1, best);
  }

  lemma SameStep(a: State, b: State, tv: Trigger, i: nat, best: Option<nat>)
    requires SameView(a, b) && ValidTrigger(a, tv) && ValidTrigger(b, tv) && (best.Some? ==> best.value < |a.sessions|)
    ensures Candidate(a, tv, i) == Candidate(b, tv, i)
    ensures Candidate(a, tv, i) ==> Better(a, tv, i, best) == Better(b, tv, i, best)
  {
    if Candidate(a, tv, i) {
      SameBetter(a, b, tv, i, best);
    }
  }

  lemma SameStable(a: State, b: State, tv: Trigger)
    requires b.sessions == a.sessions && ValidTrigger(a, tv) && ValidTrigger(b, tv) && Stable(a, tv)
    ensures Stable(b, tv)
  {
    forall i, j | Takes(b, tv, i) && Takes(b, tv, j)
      ensures Ids(EffConfig(b, tv, i)) == Ids(EffConfig(b, tv, j))
    {
      assert Takes(a, tv, i) && Takes(a, tv, j);
    }
    forall i, j | Takes(b, tv, i) && FirstOfId(b, tv, j)
      ensures Agrees(b, tv, i, j)
    {
      assert Takes(a, tv, i) && FirstOfId(a, tv, j) by {
        forall k | 0 <= k < j && Takes(a, tv, k)
          ensures a.sessions[k].nodeId != a.sessions[j].nodeId
        {
          assert Takes(b, tv, k);
        }
      }
      assert Agrees(a, tv, i, j);
    }
  }

  /** Stability and selection do not look at the state of a cluster. */
  lemma SameDecision(a: State, b: State, tv: Trigger)
    requires SameView(a, b) && ValidTrigger(a, tv)
    ensures ValidTrigger(b, tv) && Stable(b, tv) == Stable(a, tv) && Winner(b, tv) == Winner(a, tv)
  {
    SameSelect(a, b, tv, |a.sessions|);
    if Stable(a, tv) {
      SameStable(a, b, tv);
    }
    if Stable(b, tv) {
      SameStable(b, a, tv);
    }
  }

  /** A session does not conflict with itself. */
  lemma {:induction false} ConflictElsewhere(a: State, b: State, slot: nat, s: Session, i: nat)
    requires |b.sessions| == |a.sessions| && i <= |a.sessions|
    requires forall k :: 0 <= k < |a.sessions| && k != slot ==> b.sessions[k] == a.sessions[k]
    ensures P.FirstConflict(b, slot, s, i) == P.FirstConflict(a, slot, s, i)
    decreases |a.sessions| - i
  {
    if i < |a.sessions| {
      ConflictElsewhere(a, b, slot, s, i + 1);
      ConflictAt(a, b, slot, s, i);
    }
  }

  lemma ConflictAt(a: State, b: State, slot: nat, s: Session, i: nat)
    requires i < |a.sessions| && i < |b.sessions| && (i != slot ==> b.sessions[i] == a.sessions[i])
    ensures P.Conflict(b, slot, s, i) == P.Conflict(a, slot, s, i)
  {
  }

  lemma SameDue(a: State, b: State, tv: Trigger, acks: bool)
    requires b.sessions == a.sessions && ValidTrigger(a, tv) && ValidTrigger(b, tv)
    ensures V.AnyDue(b, tv, acks) <==> V.AnyDue(a, tv, acks)
  {
    assert forall i :: V.Due(b, tv, acks, i) <==> V.Due(a, tv, acks, i);
  }

  lemma {:induction false} FirstActiveStays(st: State, c: int, id: u32, k: nat, n: nat)
    requires k <= n <= |st.sessions| && FirstActive(st, c, id, k).Some?
    ensures FirstActive(st, c, id, n) == FirstActive(st, c, id, k)
  {
    if k < n {
      FirstActiveStays(st, c, id, k, n - 1);
    }
  }
}
