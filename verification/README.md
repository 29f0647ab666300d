# A verified model of the qnetd arbiter

This project models the portable core of the quorum arbiter in `components/qnetd`: the ffsplit vote
protocol, partition stability and selection, the session, cluster and timer bookkeeping of the
server, stream reassembly, the TLV codec, and from the device glue the transmit queue and the 64-bit
clock. `dafny verify dfyconfig.toml` checks all of it.

The server is modelled twice. The transition functions (`Votes`, `Protocol`, `Events`) say what each
step does to a value of type `State` or `Host`. The class `Server.Server` has the arrays, fields and
loops of the original, and each of its methods is proved to compute the transition function. The
object remembers its inputs and is at all times where the run of these inputs leads, so what is proved
about runs holds of the object.

## What is proved

**The vote protocol.** `Network` adds FIFO channels and clients that apply vote-infos in order,
answer each once and drop their vote when the session ends. Over every run of server, channels and
clients: an ACK is emitted only after every connected client NACKed by the same decision applied
that NACK and the server took its reply (`NackBeforeAck`); clients applying ACKs at the same time
are winners of one decision (`OneSideHoldsAcks`); all ACKs of a decision carry one ring
(`OneRingPerDecision`), and a NACK carries the ring its client had reported last (`NackCarriesRing`); a round without new triggers ends and is never stuck (`QuietIsLess`,
`NotStuck`, `RoundEnds`); a winner whose ACK is deferred gets it in every continuation if and only
if it owes no reply (`DeliveredIff`). `Bridge` and `ByteRuns` carry this down to received bytes: every
run of the server whose peers answer their vote-infos in order is a run of the network
(`RunReached`, `BytesNackBeforeAck`, `BytesOneSide`).

**The server alone.** In every run, whatever peers send: bookkeeping is conserved, the cluster state
describes the outstanding vote-infos exactly, nothing is left pending between entry points, each
connection ends once, each message is answered once, by exactly the reply due (`AnsweredExactly`), and
what is stored of a peer is what it announced last (`ProfileExact`). In every run whose INITs on active
sessions are harmless: "both sides ACKed" is unreachable. What a report or a departure decides, and who
is told what, is stated apart from the handlers (`ReportOutcome`, `DepartureOutcome`).

**Selection.** A quorate partition exists exactly when some client offers half of its configuration;
the one picked is a lexicographic maximum, of a key that is defined by sets of clients and nodes alone
(`Merit`); the order of the slots is irrelevant exactly when the greatest key belongs to one partition.
For two single-node halves the winner is given in closed form (`TwoHalves`), and runs on bytes show the
quorate partition move with heuristics reports and departures (`FailureMoves`, `DepartureMoves`).

**Streams, timers, codec, transport.** Chunking is irrelevant; dead-peer detection is exact;
decoding inverts writing, and both agree with a manual of the format in plain numbers (`Manual`,
`Readings`); transmit order is kept; the extended clock is exact exactly when sampled
often enough.

## Properties that hold only under a condition

- An INIT on an active session is refused, but node id and ring are stored first. `RepeatedInitIff`
  gives the exact condition under which the identity and ACK invariants survive it; the theorems about
  runs of the server are stated over all runs in which every such INIT meets it. `ImpostorBreaks` is a
  run on bytes that ends with two members of one node id. The theorems about the network ask for more:
  such an INIT repeats the stored node id and ring. A run without repeated INITs is a special case of
  both.
- A vote-info reply is matched by number only, so a late reply to an earlier decision can make a winner
  stop waiting for its ACK. `DeliveredIff` is the exact condition, `WinnerWithoutAck` a run of the network
  in which it happens.
- A NODE_ID tie-breaker may name a node that is not configured. Two tied halves are then told apart by
  slot order only: in the runs of `PartingDecided` the half that connected first then wins.
  `OrderIgnoredIff` is the exact condition.
- A report is weighed before it is stored, and only in the statistics of its sender does the new
  heuristics result count at once. `WeighedAsStoredIff` is the exact condition under which a client is
  weighed as if the report had been stored; `DecidedAsStored` carries it over to decisions. `SaidTwice` is
  a run on bytes in which the same report sent twice decides differently.
- A leaving client takes no part in the decision its departure sets off, but still counts as connected in
  the partitions that list it. `WeighedAsGoneIff` is the exact condition under which it does not matter to
  a client, `DecidedAsGone` carries it over to decisions.

## Files

| file | content |
|---|---|
| `Wire`, `Msg` | integer widths, enumerations, node lists, decoded messages, replies |
| `Tlv`, `Codec`, `Writer`, `RoundTrip`, `Requests` | options, decoding, writing, round trips |
| `Manual`, `Readings` | the message format in plain numbers, and that decoder and writer follow it |
| `ServerState`, `Stability`, `Selection`, `Votes`, `Protocol`, `Events` | state and transition functions |
| `ArgMax`, `SlotOrder`, `Merit` | what selection computes |
| `Answers`, `Replies` | what a client gets back, which INITs are accepted |
| `Reports`, `Outcomes`, `Departures` | what reports and departures decide |
| `Invariants`, `Preservation`, `Messages`, `Renaming`, `Runs`, `Theorems` | invariants and whole runs of the server |
| `Framing`, `Chunks`, `Faults`, `Timers`, `DeadPeers`, `Profiles` | streams, deadlines, and what is known of a peer |
| `Effects`, `Network`, `NetworkSteps`, `NetworkRuns`, `VoteRound`, `Delivery` | server, channels and clients |
| `Bridge`, `ByteRuns` | from bytes to the network |
| `Pairs`, `TwoSides`, `Arrivals`, `LateReply`, `Setbacks`, `Trios` | runs with two and three peers, and what the conditions exclude |
| `Server` | the imperative server |
| `Transport` | transmit queue and clock |

## How the source is represented

- `Session::rx`, `Session::schedule_disconnect`, `pending_close_` and `processing_` are kept beside the
  protocol state (`Events.Host`), because no message handler reads them.
- Calls of the transport become entries of the output `out`, in order. The socket's answers and the
  clock's samples are parameters.
- `vote_info_seq` and `decisions_` wrap at 32 bits. Times are natural numbers.
- The trigger view holds values where the source holds pointers.
- A received node state is any byte, an algorithm any 16-bit number: the decoder does not check them.
- The message type is in the frame header and is not part of the decoded payload.

## Model

| member | source | states |
|---|---|---|
| `NetworkRuns.NackBeforeAck` | components/qnetd/server.cpp:403-434 | Over every run of server, FIFO channels and clients: whenever a move emits an ACK of a decision, every still-connected client NACKed by that decision has applied that very NACK and the server has taken its reply |
| `NetworkRuns.OneSideHoldsAcks` | README.md:20 | Over every run: of two clients of a cluster that apply an ACK at the same time, both are winners of the decision behind the newer ACK |
| `NetworkRuns.OneRingPerDecision` | components/qnetd/server.cpp:709-733 | Over every run: all ACKs ever sent for one decision, at once or after the last NACK reply, carry one ring id and go to winners of that decision |
| `NetworkRuns.VoteCarriesRing` | components/qnetd/server.cpp:709-733 | Over every run: every vote-info a move emits carries the ring its recipient has stored after that move |
| `NetworkRuns.NackCarriesRing` | components/qnetd/server.cpp:709-733 | Over every run: every NACK of a decision ever sent carries the ring its recipient had reported last when that decision was taken, the report that set it off included |
| `NetworkRuns.ReachedInv` | components/qnetd/server.cpp:42-779 | The invariant of server and channels together holds in every reachable state |
| `NetworkRuns.MakeInv` | components/qnetd/server.cpp:42-779 | Each move of the network (connect, message, reply, client applying, end of a session, renewed deadline, refusal) keeps that invariant |
| `NetworkRuns.AckIsLatest` | components/qnetd/server.cpp:403-434 | A move emits ACKs only for the latest decision of a cluster that has no NACK outstanding |
| `NetworkRuns.SettledNacks` | components/qnetd/server.cpp:416-426 | With no NACK outstanding, every connected client NACKed by the latest decision holds that NACK and owes no reply |
| `NetworkSteps.DecidesNet` | components/qnetd/server.cpp:745-779 | A decision, with all its vote-infos entering the channels, keeps the invariant of the network |
| `NetworkSteps.SettlesNet` | components/qnetd/server.cpp:403-434 | A reply to the latest vote-info, with the ACKs it may release, keeps the invariant of the network |
| `NetworkSteps.CalmNet` | components/qnetd/server.cpp:134-315 | A step without a decision keeps the invariant of the network |
| `NetworkSteps.AppliesNet` | README.md:8-13 | A client applying its oldest vote-info and replying once keeps the invariant of the network |
| `NetworkSteps.HangupInv` | README.md:8-13 | The end of a session, at which the client drops its vote, keeps the invariant of the network |
| `Network.ReplyMatches` | components/qnetd/server.cpp:410-416 | Over FIFO channels a reply carries the latest sequence number exactly when it answers the only unanswered vote-info, 32-bit wrap-around included |
| `Bridge.StepIsMoves` | components/qnetd/server.cpp:26-132 | Every entry point of the server, down to the bytes it receives, does what a sequence of moves of the network makes the server do |
| `ByteRuns.RunReached` | components/qnetd/server.cpp:26-132 | Behind every run on bytes whose vote-info replies answer the oldest unanswered vote-info, and whose INITs on active sessions repeat id and ring, there is a run of the network with the same server and exactly the unanswered vote-infos in flight |
| `ByteRuns.BytesNackBeforeAck` | components/qnetd/server.cpp:403-434 | In every such run on bytes: whenever a frame, fault, disconnect or expiry makes the server emit an ACK, every connected client NACKed by that decision has applied the NACK and answered it |
| `ByteRuns.BytesOneSide` | README.md:20 | After every such run on bytes, however much of what is in flight the clients have applied: clients applying ACKs at the same time are winners of one decision |
| `VoteRound.QuietIsLess` | components/qnetd/server.cpp:403-434 | Without new triggers every move decreases a measure, so a vote round ends |
| `VoteRound.NotStuck` | components/qnetd/server.cpp:403-434 | While a cluster is sending NACKs or ACKs, and no more vote-infos are unanswered than there are sequence numbers, a client can apply or reply |
| `Delivery.DeliveredIff` | components/qnetd/server.cpp:403-434 | A deferred winner is sent its ACK in every continuation without new triggers if and only if it owes no reply to an earlier vote-info |
| `Delivery.RoundEnds` | components/qnetd/server.cpp:403-434 | From every state with room for the sequence numbers in flight, the clients alone can bring a vote round to its end |
| `VoteRound.WinnersGetAcks` | components/qnetd/server.cpp:416-426 | Without new triggers, a winner that owed no reply when the decision was taken has its ACK once no NACK is outstanding |
| `VoteRound.DecisionPromises` | components/qnetd/server.cpp:692-779 | After a decision every winner that owed no reply is promised its ACK |
| `VoteRound.DecisionExposes` | components/qnetd/server.cpp:692-779 | After a decision with losers every winner that owed a reply is exposed: the late reply is matched by number only |
| `Delivery.LateReplyForfeits` | components/qnetd/server.cpp:410-416 | From every state in which a deferred winner owes a reply, the run in which the late reply arrives first, up to the end of the round without its ACK |
| `LateReply.ExposedIsReached` | components/qnetd/server.cpp:403-434 | Such a state is reached: two nodes are ACKed, see each other gone before replying, and the one with the lowest id wins |
| `LateReply.WinnerWithoutAck` | components/qnetd/server.cpp:403-434 | The network has a run after which a round is over and a connected winner of its decision was never sent the ACK |
| `LateReply.AcksAreReached` | components/qnetd/server.cpp:709-733 | The network has a run in which two members of a cluster are sent an ACK |
| `VoteRound.ForfeitStays` | components/qnetd/server.cpp:410-434 | Once lost, the ACK of that decision is not sent by any run without new triggers |
| `Theorems.BothSidesUnreachable` | README.md:20 | In every run whose INITs on active sessions are harmless: sessions of a settled cluster whose last vote is ACK are all in the quorate partition, with one ring and one membership, equal to it |
| `Theorems.IdentitiesKept` | components/qnetd/server.cpp:255-275 | In every run whose INITs on active sessions are harmless: active members have distinct node ids and stored lists name their owner |
| `Theorems.ClusterStateExact` | components/qnetd/server.cpp:416-432 | In every run the cluster state says exactly which vote-infos are outstanding |
| `Theorems.BookkeepingConserved` | components/qnetd/server.cpp:277-293 | In every run a cluster record counts its active sessions, is used exactly when there are any, names are distinct, members share name and tie-breaker |
| `Theorems.NothingPending` | components/qnetd/server.cpp:56-80 | After every run no close is pending or scheduled, nothing is being processed, every buffer is a strict prefix of one admissible frame |
| `Theorems.ConnectionsBalance` | components/qnetd/server.cpp:26-80 | Over every run each accepted connection ends exactly once, by the server or by the transport, or is still open |
| `Renaming.RepeatedInitIff` | components/qnetd/server.cpp:216-227 | An INIT on an active session keeps the invariant of identities and ACKs if and only if it is harmless, a condition on the stored state and the id and ring it carries |
| `Renaming.HarmlessMsgInv` | components/qnetd/server.cpp:134-193 | Every message but a harmful INIT keeps the full invariant |
| `Renaming.CleanIsHarmless` | components/qnetd/server.cpp:216-227 | An INIT that repeats the stored id and ring is harmless |
| `Arrivals.ImpostorBreaks` | components/qnetd/server.cpp:216-227 | For any two nodes: a run on bytes after which the invariant holds, and an INIT on an active session that then gives two members one node id |
| `Runs.RunInv` | components/qnetd/server.cpp:26-132 | Bookkeeping and cluster states are exact and nothing is pending after every run, whatever the peers send |
| `Runs.CleanRunInv` | components/qnetd/server.cpp:26-132 | The full invariant holds after every run whose INITs on active sessions are harmless |
| `Runs.StepInv` | components/qnetd/server.cpp:26-132 | Each entry point keeps the invariant |
| `Runs.StepIdle` | components/qnetd/server.cpp:42-132 | Each entry point leaves nothing pending and no complete frame buffered |
| `Messages.HandleMsgInv` | components/qnetd/server.cpp:134-193 | Each message keeps the invariant |
| `Messages.InitInv` | components/qnetd/server.cpp:212-298 | INIT keeps the invariant: member counts, distinct names, equal tie-breakers, distinct ids |
| `Messages.NodeListInv` | components/qnetd/server.cpp:319-401 | A node list keeps the invariant although it is stored only after the decision ran on it |
| `Messages.HeuristicsInv` | components/qnetd/server.cpp:436-460 | A heuristics change keeps the invariant |
| `Messages.VoteInfoReplyInv` | components/qnetd/server.cpp:403-434 | A vote-info reply keeps the invariant |
| `Preservation.CloseInv` | components/qnetd/server.cpp:479-495 | Leaving a cluster, including the decision it triggers, keeps the invariant |
| `Preservation.TriggerInv` | components/qnetd/server.cpp:377-399 | Running the algorithm on incoming lists and then storing them keeps the invariant |
| `Preservation.JoinedInv` | components/qnetd/server.cpp:277-293 | A session joining its cluster keeps the invariant |
| `Invariants.AfterDecisionAcked` | components/qnetd/server.cpp:692-779 | Right after a decision all sessions that hold or await an ACK are in the quorate partition and agree on ring and membership |
| `Invariants.DecisionWork` | components/qnetd/server.cpp:745-779 | A decision leaves the cluster state describing the vote-infos it left outstanding |
| `Invariants.AcknowledgeWork` | components/qnetd/server.cpp:416-432 | A vote-info reply leaves the cluster state describing the outstanding vote-infos |
| `Invariants.WinnersAgree` | components/qnetd/server.cpp:541-568 | In a stable view all participants in the winning partition have its ring and its membership |
| `Votes.DecisionEffect` | components/qnetd/server.cpp:745-779 | A decision in closed form: who is marked, who is sent what, the cluster state, the events |
| `Votes.VotesToOfPass` | components/qnetd/server.cpp:709-733 | A send pass delivers exactly one vote-info to each session due one, and nothing to anyone else |
| `Votes.PassEffect` | components/qnetd/server.cpp:709-733 | Releasing the ACKs in closed form |
| `Effects.MsgEffect` | components/qnetd/server.cpp:134-193 | Every message but a vote-info reply either leaves all votes alone or amounts to one decision in the sender's cluster |
| `Effects.CloseDecides` | components/qnetd/server.cpp:479-495 | Closing a session in a stable cluster is one decision without it |
| `Effects.AcknowledgeEffect` | components/qnetd/server.cpp:403-434 | A reply releases ACKs exactly when it was the last NACK reply |
| `Effects.MsgRings` | components/qnetd/server.cpp:709-733 | Every vote-info a message makes the server send carries the ring its recipient has stored afterwards |
| `Effects.EndRings` | components/qnetd/server.cpp:709-733 | So does every vote-info the end of a session makes it send |
| `Outcomes.ReportOutcome` | components/qnetd/server.cpp:319-460 | What a configuration, membership or heuristics report leads to: it is stored whole; without both lists, or as an initial configuration, nothing is decided; while unstable the cluster waits; otherwise the best partition of what is known with the report becomes quorate, losers are sent a NACK and, without losers, winners an ACK, with the next number and their own ring |
| `Reports.StableAsStored` | components/qnetd/server.cpp:377-399 | Stability does not depend on whether a report is stored before or after the algorithm runs on it |
| `Reports.WeighedAsStoredIff` | components/qnetd/server.cpp:597-617 | A client is weighed as if a report had been stored first if and only if it is the sender, its partition does not list the sender, or the heuristics result is the stored one |
| `Reports.DecidedAsStored` | components/qnetd/server.cpp:377-460 | The decision is the one on the stored report, when the heuristics result is no news to any other partition member |
| `Setbacks.HalfReports` | components/qnetd/server.cpp:436-460 | Two single-node halves, any stored state: after a heuristics report of either, the half with the better result is quorate; with equal results the one that was, unless a member switched that off; then the favourite; then the first slot |
| `Setbacks.FailureMoves` | components/qnetd/server.cpp:436-460 | On bytes, for any two nodes and tie-breaker: a FAIL of the quorate half makes the other half quorate, its next PASS makes it quorate again |
| `Trios.SaidTwice` | components/qnetd/server.cpp:597-617 | On bytes, for any tie-breaker: three peers of a four-node cluster; a FAIL of node 1 leaves its half quorate, the same FAIL repeated makes the other half quorate |
| `Trios.StoredFirst` | components/qnetd/server.cpp:597-617 | Had that report been stored before the algorithm ran, the other half would have won at once |
| `Departures.DepartureOutcome` | components/qnetd/server.cpp:479-495 | What the end of an active session leads to: while those who stay disagree nobody is told anything; otherwise their best partition becomes quorate and they are told; the record is cleared with the last member |
| `Departures.StableAsGone` | components/qnetd/server.cpp:479-495 | Whether those who stay agree is what it is once the session has gone |
| `Departures.WeighedAsGoneIff` | components/qnetd/server.cpp:597-617 | One who stays is weighed as if the leaving client had gone already if and only if its partition does not list that client |
| `Departures.DecidedAsGone` | components/qnetd/server.cpp:479-495 | The decision is the one those who stay would take by themselves, when none of them lists the leaving client and it is not the only one against keeping the quorate partition |
| `Setbacks.DepartureMoves` | components/qnetd/server.cpp:479-495 | On bytes, for any two nodes and tie-breaker: when the quorate half loses its client the other half becomes quorate |
| `Stability.StableIffAllAgree` | components/qnetd/server.cpp:522-570 | With distinct ids, stability is: equal configured id sets, and every participant in a membership shares its ring and contains it |
| `Stability.PartitionsAreClasses` | components/qnetd/server.cpp:522-570 | In a stable view being in the same partition is an equivalence whose classes share ring and membership |
| `ArgMax.QuorateIff` | components/qnetd/server.cpp:619-690 | A quorate partition is selected if and only if some participant offers at least half of its configuration, and the one selected does |
| `ArgMax.SelectIsBest` | components/qnetd/server.cpp:654-690 | The walk keeps a client with the greatest key among those seen, ties to the earlier or the later as the key says |
| `ArgMax.BetterIsLess` | components/qnetd/server.cpp:619-652 | The pairwise comparison is the lexicographic order of majority, score, connected clients, previously quorate, preferred node |
| `Merit.HalfPrevails` | components/qnetd/server.cpp:597-690 | Without statistics, comparison or walk: of the halves of a configuration the one wins that outdoes every client of the other by clients plus passes less failures, then by connected clients, then by having been quorate, then by holding the least, greatest or named node |
| `Merit.MajorityPrevails` | components/qnetd/server.cpp:622-634 | A partition of more than half of the configuration wins |
| `Merit.WinnerIsNotOutdone` | components/qnetd/server.cpp:619-690 | A half that wins has a client which no client of the other half outdoes |
| `Merit.KeyIsMerit` | components/qnetd/server.cpp:597-652 | The key of a client is its standing, its connected clients, whether it was quorate with nobody objecting, and whether its partition holds the favourite |
| `Merit.FavouredIsPreferred` | components/qnetd/server.cpp:572-595 | The preferred node is the least, the greatest or the named one, by definition of these words |
| `SlotOrder.WinnerIsArgMax` | components/qnetd/server.cpp:654-690 | With a tie-breaker that names a configured node, the winner is the one partition with the greatest key |
| `SlotOrder.OrderIgnoredIff` | components/qnetd/server.cpp:654-690 | The winner is the same for every order of the slots if and only if the greatest key belongs to one partition |
| `SlotOrder.ConfiguredSettles` | components/qnetd/server.cpp:572-595 | A tie-breaker that names a configured node makes the greatest key belong to one partition |
| `SlotOrder.SettledIgnoresOrder` | components/qnetd/server.cpp:654-690 | Any reordering of the slots picks the same node-id set when the greatest key belongs to one partition |
| `SlotOrder.UnsettledFollowsOrder` | components/qnetd/server.cpp:654-690 | Otherwise swapping two slots changes the winner |
| `Arrivals.PartingTies` | components/qnetd/server.cpp:590-594 | For any two nodes and a NODE_ID tie-breaker naming neither: a run on bytes after which the stored view is stable, partitioned and leaves the tie to the order of the slots |
| `Arrivals.PartingDecided` | components/qnetd/server.cpp:654-690 | The decision for any two nodes and any tie-breaker: the lower, the higher or the named node becomes quorate, and if neither is named the one that connected first |
| `TwoSides.TwoHalves` | components/qnetd/server.cpp:572-690 | Which of two single-node halves wins, in closed form over heuristics results, keep-active options, the quorate list and the tie-breaker |
| `TwoSides.TieFollowsSlots` | components/qnetd/server.cpp:654-690 | When the preferred node is in neither half, the half in the earlier slot wins |
| `SlotOrder.Halves` | components/qnetd/server.cpp:628-634 | Two disjoint partitions of at least half are both exactly half and make up the configuration; equal ones are equally big |
| `SlotOrder.StatsCount` | components/qnetd/server.cpp:597-617 | The statistics are the numbers of connected, passing and failing clients of the partition |
| `SlotOrder.MovedKey` | components/qnetd/server.cpp:597-652 | A client has the same key in any slot |
| `Replies.AnsweredExactly` | components/qnetd/server.cpp:134-460 | Every message of every phase is answered once, to its sender, with its own number, by exactly the reply given by a table of types, phases and contents; only a numbered vote-info reply gets none; all else sent are vote-infos. Refused messages, echo requests and quorum reports change nothing, and neither does a reply with an old number |
| `Replies.InitJudged` | components/qnetd/server.cpp:212-298 | The code of an INIT: the first objection to its options, else the clash with the member in the lowest slot, else whether a record is left |
| `Answers.AcceptedIff` | components/qnetd/server.cpp:212-293 | An INIT is accepted if and only if the session is not active, its options are complete and in range, it fits the active members, and there is a record for the cluster |
| `Chunks.ChunksDoNotMatter` | components/qnetd/server.cpp:101-132 | However received bytes are cut into chunks, the server ends in the same state with the same frames and closes |
| `Chunks.TwoChunks` | components/qnetd/server.cpp:101-132 | Receiving a+b is receiving a and then b, also when a frame is malformed or too long |
| `Framing.LoopIsSplit` | components/qnetd/server.cpp:111-129 | The frame loop handles exactly the frames of the stream, in order, and schedules a close exactly on a fault |
| `Framing.DataEffect` | components/qnetd/server.cpp:101-132 | Received bytes in closed form |
| `Framing.SplitJoins` | components/qnetd/server.cpp:112-128 | Cutting a stream loses nothing and leaves a strict prefix of a frame |
| `Framing.JoinSplits` | components/qnetd/server.cpp:112-128 | Whole frames sent back to back come out again |
| `Framing.SplitAppend` | components/qnetd/server.cpp:107-128 | A later chunk continues where the earlier ones left off; after a fault nothing counts |
| `DeadPeers.PeerExact` | components/qnetd/server.cpp:82-108 | Over every run an open session has buffered exactly the unfinished end of its stream, and its deadline is its allowance after it was last heard |
| `DeadPeers.SilenceCloses` | components/qnetd/server.cpp:89-97 | After every run a tick closes exactly the sessions silent for their allowance |
| `DeadPeers.TickExact` | components/qnetd/server.cpp:89-97 | A tick closes exactly the sessions expired at its entry, in slot order, each once, although each close re-runs the algorithm |
| `DeadPeers.FaultCloses` | components/qnetd/server.cpp:116-142 | Received bytes close their own session, and no other, exactly when they put a fault into the peer's stream |
| `Faults.FaultTold` | components/qnetd/server.cpp:116-142 | After every run: bytes that leave a header announcing too much, or a complete frame that is no message, after the good frames of the peer's stream are answered last by that reason, without a number, and the connection is closed |
| `Faults.OnlyFaultsCloseIt` | components/qnetd/server.cpp:111-142 | Received bytes that close their session have broken the stream in one of these two ways |
| `Profiles.MsgHeeds` | components/qnetd/server.cpp:197-315 | What is stored of a peer after any message, field by field: name, node id, ring, heartbeat, tie-breaker, keep-active option, lists and heuristics result are what it announced last in a message that was taken |
| `Profiles.ProfileExact` | components/qnetd/server.cpp:101-132 | Over every run on bytes: the stored session of a peer is the profile read off the messages of its stream |
| `Profiles.SilenceExact` | components/qnetd/server.cpp:82-108 | After every run a tick closes exactly the peers silent for 30 seconds before their INIT was accepted, or for one and a half times the heartbeat they last announced in an accepted INIT or SET_OPTION |
| `Timers.MsgKeepsTime` | components/qnetd/server.cpp:82-87 | A message keeps the sender's deadline to its allowance, also across phase and heartbeat changes, and leaves all other timers alone |
| `Server.Server.constructor` | components/qnetd/server.h:34-36 | A new server is the initial state |
| `Server.Server.SameConfigured` | components/qnetd/server.cpp:524-540 | Returns whether all participants have the same configured ids |
| `Server.Server.FirstParticipant` | components/qnetd/server.cpp:549-559 | Finds the first participant with a node id |
| `Server.Server.PartitionAgrees` | components/qnetd/server.cpp:546-567 | Returns whether the participants in a membership share its ring and contain it |
| `Server.Server.IsStable` | components/qnetd/server.cpp:522-570 | Returns whether the view is stable |
| `Server.Server.PartitionStatistics` | components/qnetd/server.cpp:597-617 | Counts connected, passing and failing members |
| `Server.Server.KeepsActive` | components/qnetd/server.cpp:658-665 | Returns whether no member switched the keep-active tie-breaker off |
| `Server.Server.PartitionBetter` | components/qnetd/server.cpp:619-652 | Returns whether a partition beats the best so far |
| `Server.Server.SelectPartition` | components/qnetd/server.cpp:654-690 | Returns the winning membership |
| `Server.Server.CountState` | components/qnetd/server.cpp:735-743 | Returns the number of members in a voting state, zero exactly when there is none |
| `Server.Server.MarkStates` | components/qnetd/server.cpp:692-707 | Marks every member of the cluster; the new state is the transition function of the old |
| `Server.Server.SendVotes` | components/qnetd/server.cpp:709-733 | Sends the vote-infos of one kind, each with the ring the decision saw (see `Effects.MsgRings`), and counts them; the new state is the transition function of the old |
| `Server.Server.ReleaseAcks` | components/qnetd/server.cpp:773-776 | Sends the ACKs and sets the cluster state accordingly; the new state is the transition function of the old |
| `Server.Server.FfsplitDo` | components/qnetd/server.cpp:745-779 | One run of the algorithm refines its transition function; the new state is the transition function of the old |
| `Server.Server.HandlePreinit` | components/qnetd/server.cpp:197-210 | PREINIT; the new state is the transition function of the old |
| `Server.Server.Reschedule` | components/qnetd/server.cpp:82-87 | Renews the dead-peer deadline; the new state is the transition function of the old |
| `Server.Server.StoreInit` | components/qnetd/server.cpp:214-253 | Checks the options of an INIT and stores each as it is accepted; the new state is the transition function of the old |
| `Server.Server.CheckMembers` | components/qnetd/server.cpp:255-275 | Finds the first conflict with an active member |
| `Server.Server.FindOrCreateCluster` | components/qnetd/server.cpp:464-477 | Finds the cluster of a name or takes a fresh record; the new state is the transition function of the old |
| `Server.Server.Join` | components/qnetd/server.cpp:277-293 | Admits a session into its cluster; the new state is the transition function of the old |
| `Server.Server.HandleInit` | components/qnetd/server.cpp:212-298 | INIT; the new state is the transition function of the old |
| `Server.Server.HandleSetOption` | components/qnetd/server.cpp:300-315 | SET_OPTION: what it stores and answers is given by `Profiles.MsgHeeds` and `Replies.AnsweredExactly`; the new state is the transition function of the old |
| `Server.Server.HandleConfig` | components/qnetd/server.cpp:329-345 | A configuration list; the new state is the transition function of the old |
| `Server.Server.HandleMembership` | components/qnetd/server.cpp:346-362 | A membership list; the new state is the transition function of the old |
| `Server.Server.HandleNodeList` | components/qnetd/server.cpp:319-401 | NODE_LIST; the new state is the transition function of the old |
| `Server.Server.Acknowledge` | components/qnetd/server.cpp:416-432 | A reply to the latest vote-info; the new state is the transition function of the old |
| `Server.Server.HandleVoteInfoReply` | components/qnetd/server.cpp:403-434 | VOTE_INFO_REPLY; the new state is the transition function of the old |
| `Server.Server.HandleHeuristicsChange` | components/qnetd/server.cpp:436-460 | HEURISTICS_CHANGE: what it stores, decides and answers is given by `Outcomes.ReportOutcome` and `Replies.AnsweredExactly`; the new state is the transition function of the old |
| `Server.Server.HandleMsg` | components/qnetd/server.cpp:146-164 | A message, gated by the phase of its session; the new state is the transition function of the old |
| `Server.Server.HandleActive` | components/qnetd/server.cpp:165-192 | A message of an active session; the new state is the transition function of the old |
| `Server.Server.LeaveCluster` | components/qnetd/server.cpp:479-495 | A session leaves its cluster; the new state is the transition function of the old |
| `Server.Server.CloseSession` | components/qnetd/server.cpp:74-75 | Leaves the cluster and frees the slot; the new state is the transition function of the old |
| `Server.Server.DrainCloses` | components/qnetd/server.cpp:67-80 | Closes the scheduled sessions, last scheduled first; the new state is the transition function of the old |
| `Server.Server.DisconnectClient` | components/qnetd/server.cpp:56-65 | Schedules a close, done at once outside of message processing; the new state is the transition function of the old |
| `Server.Server.OnConnect` | components/qnetd/server.cpp:26-40 | A connection takes the first free slot; the new state is the transition function of the old, and the object stays where the run of its inputs leads |
| `Server.Server.OnDisconnected` | components/qnetd/server.cpp:42-54 | The transport reports a connection gone; the new state is the transition function of the old, and the object stays where the run of its inputs leads |
| `Server.Server.HandleFrame` | components/qnetd/server.cpp:134-142 | A frame is decoded and handled, or ends the session; the new state is the transition function of the old |
| `Server.Server.ConsumeFrame` | components/qnetd/server.cpp:125-128 | One frame is handled and removed from the buffer; the new state is the transition function of the old |
| `Server.Server.ConsumeFrames` | components/qnetd/server.cpp:111-129 | Every complete frame is handled; the new state is the transition function of the old |
| `Server.Server.OnData` | components/qnetd/server.cpp:101-132 | Received bytes; the new state is the transition function of the old, and the object stays where the run of its inputs leads |
| `Server.Server.Sweep` | components/qnetd/server.cpp:89-97 | Disconnects the sessions past their deadline; the new state is the transition function of the old |
| `Server.Server.Tick` | components/qnetd/server.cpp:89-97 | The clock; the new state is the transition function of the old, and the object stays where the run of its inputs leads |
| `Server.Server.Sound` | components/qnetd/server.cpp:26-132 | Of the object between inputs: bookkeeping and cluster states are exact, nothing is pending, only partial frames are buffered |
| `Server.Server.OneSide` | README.md:20 | Of the object: two sessions of a settled cluster last sent an ACK are in the quorate partition with one ring and one membership |
| `Server.Server.Silence` | components/qnetd/server.cpp:89-97 | Of the object: its next tick closes exactly the peers silent for the time their announced heartbeat allows |
| `Server.Covers` | components/qnetd/server.cpp:536-538 | Returns whether every id of one list is in the other |
| `Server.IsPreferred` | components/qnetd/server.cpp:572-595 | Returns whether a partition holds the preferred node: by `Merit.FavouredIsPreferred` the least, greatest or named one |
| `Server.SameDecision` | components/qnetd/server.cpp:749-756 | Stability and selection do not look at the state of the cluster, which is overwritten first |
| `Wire.Find` | components/qnetd/tlv.h:139-145 | Finds the first entry with an id exactly when there is one |
| `Tlv.ParseExact` | components/qnetd/tlv.h:250-263 | A payload is accepted exactly when it is a concatenation of encoded options |
| `Tlv.EncodeParse` | components/qnetd/tlv.h:178-182 | Re-encoding what was parsed reproduces the payload byte for byte |
| `Tlv.ParseEncode` | components/qnetd/tlv.h:250-263 | What was written parses into the same options in the same order |
| `Tlv.TlvIterator.constructor` | components/qnetd/tlv.h:247 | The cursor starts before the first option |
| `Tlv.TlvIterator.Next` | components/qnetd/tlv.h:250-263 | The cursor moves to the next option, which lies within the payload, or reports the end or a malformed payload |
| `Tlv.Options` | components/qnetd/tlv.h:245-275 | Walking a payload with the cursor yields its options in order, or reports it malformed |
| `Tlv.GetPut64` | components/qnetd/tlv.h:150-170 | Big-endian numbers are read back as written |
| `Codec.DecodeNodeInfoLoop` | components/qnetd/msg.cpp:11-38 | The nested decoder computes the fold over the options |
| `Codec.MsgDecode` | components/qnetd/msg.cpp:40-161 | The decoding loop computes the fold over the options, whose result `Manual.DecodedByManual` gives in the numbers of the protocol |
| `Codec.FoldEncoded` | components/qnetd/msg.cpp:45-161 | Decoding written options is folding over them |
| `Codec.FoldParsed` | components/qnetd/msg.cpp:45-161 | Decoding succeeds only on well-formed payloads, and then is the fold over their options |
| `Manual.SpelledExactly` | components/qnetd/tlv.h:150-182 | A payload is read as certain options if and only if it spells them: kind and length in two bytes each, high byte first, then the data |
| `Manual.DecodedByManual` | components/qnetd/msg.cpp:40-161 | A payload decodes if and only if it spells options of legal lengths and values, at most 16 node infos among them; every field is then what the last option of its kind says, by number, and the nodes are all infos in order |
| `Manual.InfoByManual` | components/qnetd/msg.cpp:11-38 | A node info decodes if and only if its options are legal and one names the node; each field is what the last option of its kind says |
| `Readings.ReplySays` | components/qnetd/msg.cpp:181-264 | Every reply is a frame of its type number and length whose options say, in the numbers of the protocol, what the reply says: error code, sizes, advertised lists, algorithm, votes, ring, list type |
| `Readings.HeaderByManual` | components/qnetd/server.cpp:112-128 | The server takes the type of a frame from its first two bytes and its length from the next four, high byte first |
| `Writer.TlvWriter.Add` | components/qnetd/tlv.h:178-182 | Appends one option to the options written so far |
| `Writer.TlvWriter.AddU16Array` | components/qnetd/tlv.h:201-206 | Appends an option holding an array to the options written so far |
| `Writer.TlvWriter.AddRingId` | components/qnetd/tlv.h:207-216 | Appends a ring id to the options written so far |
| `Writer.TlvWriter.AddTieBreaker` | components/qnetd/tlv.h:217-226 | Appends a tie-breaker, its node id only in the mode that uses it to the options written so far |
| `Writer.TlvWriter.AddNodeInfo` | components/qnetd/tlv.h:228-237 | Appends a nested node info, leaving out unset parts to the options written so far |
| `Writer.LongBytes` | components/qnetd/tlv.h:192-197 | The loop writes a long number most significant byte first, so that it is read back as written |
| `Writer.EndFrame` | components/qnetd/msg.cpp:172-179 | Patches the payload length into the header |
| `Writer.BuildPreinitReply` | components/qnetd/msg.cpp:181-189 | Builds the rendering of the reply, of which the round trip is proved |
| `Writer.BuildServerError` | components/qnetd/msg.cpp:191-198 | Builds the rendering of the reply, of which the round trip is proved |
| `Writer.BuildInitReply` | components/qnetd/msg.cpp:200-216 | Builds the rendering of the reply, of which the round trip is proved |
| `Writer.BuildSetOptionReply` | components/qnetd/msg.cpp:218-229 | Builds the rendering of the reply, of which the round trip is proved |
| `Writer.BuildEchoReply` | components/qnetd/msg.cpp:231-236 | Builds the rendering of the reply, of which the round trip is proved |
| `Writer.BuildNodeListReply` | components/qnetd/msg.cpp:238-246 | Builds the rendering of the reply, of which the round trip is proved |
| `Writer.BuildVoteInfo` | components/qnetd/msg.cpp:248-255 | Builds the rendering of the reply, of which the round trip is proved |
| `Writer.BuildHeuristicsChangeReply` | components/qnetd/msg.cpp:257-264 | Builds the rendering of the reply, of which the round trip is proved |
| `RoundTrip.ReplyRoundTrip` | components/qnetd/msg.cpp:181-264 | Every reply is one whole frame that decodes to the values it was built from |
| `RoundTrip.EchoRoundTrip` | components/qnetd/msg.cpp:231-236 | An echo reply decodes exactly like its request; only the type differs |
| `RoundTrip.ListRoundTrip` | components/qnetd/msg.cpp:111-119 | A list of at most 16 node infos is read back as written, a longer one is refused |
| `RoundTrip.InfoRoundTrip` | components/qnetd/msg.cpp:11-38 | A node info is read back as written |
| `RoundTrip.TieBreakerRead` | components/qnetd/msg.cpp:138-144 | A tie-breaker survives up to tie-breaker equality |
| `RoundTrip.RingRead` | components/qnetd/msg.cpp:98-104 | A ring id survives |
| `Requests.RequestRoundTrip` | components/qnetd/msg.cpp:40-161 | PREINIT, INIT, SET_OPTION, NODE_LIST with or without heuristics or quorate flag, HEURISTICS_CHANGE and VOTE_INFO_REPLY requests, written in the numbers of the protocol, are one whole frame that decodes to what was said |
| `Transport.TransmitExact` | components/qnetd/qnetd_component.cpp:63-79 | What the socket took followed by the queue is everything submitted, in order, if and only if no frame was lost to a hard error |
| `Transport.OrderKept` | components/qnetd/qnetd_component.cpp:63-79 | Whatever the socket does, what it took followed by the queue is the frames not lost, whole and in order |
| `Transport.Conn.SendFrame` | components/qnetd/qnetd_component.cpp:63-79 | Writes at once if nothing is queued and queues what the socket does not take |
| `Transport.Conn.FlushQueue` | components/qnetd/qnetd_component.cpp:135-140 | Writes queued bytes and removes what the socket took |
| `Transport.ClockExact` | components/qnetd/qnetd_component.cpp:11-19 | The 64-bit clock shows the true time at every sample if and only if the first sample precedes the first wrap and none comes a whole wrap after the one before |
| `Transport.ClockExtender.Now` | components/qnetd/qnetd_component.cpp:11-19 | Takes one sample |

## Left out

- Logging, `notify`, `status_string`, `vote_str`, `msg_type_str`, `connected_clients`, `any_ack`: display only.
- `Session::peer`, configuration version and the quorum list are stored by the source and never read in a decision; the model does not store them.
- `Session::last_sent_vote` is written with every vote sent and never read; the model does not store it.
- TLS advertisement beyond the fixed reply, STARTTLS beyond its refusal.
- Sockets, accept and read loops, component lifecycle, the host wrapper, Python and YAML: no protocol logic.
- `cluster_client_by_node_id` is never called; `add_string` is never called.
- Wrap-around of the 64-bit deadline arithmetic.
- ByteRuns.DutifulRun: at most 2^32 vote-infos of a session are unanswered when a reply arrives, because numbers repeat after that.
- Delivery.Room: rounds with more than 2^32 vote-infos unanswered on one link are not shown to end.
- Client behaviour beyond applying vote-infos in order, answering once with the same number and dropping the vote with the session is not part of the repository.
- NetworkRuns.Honest: a reply is only taken while at most 2^32 vote-infos of its session are unanswered, because numbers repeat after that.
- SlotOrder.Partitioned: node lists are assumed duplicate-free, memberships within the configuration and pairwise equal or disjoint, because the server does not check it.
- Transport.ClockExact: times stay below 2^64 milliseconds and do not decrease.
- Server.Server: methods take the trigger's lists by value, so aliasing of a stored list with the winner is not modelled.
- Reports.DecidedAsStored: one direction only; the converse is stated for the weight of each client (`WeighedAsStoredIff`), because which weights change a decision depends on every other client.
- Departures.DecidedAsGone: one direction only, for the same reason; `WeighedAsGoneIff` is exact.
