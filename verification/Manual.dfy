/** The message format as a manual would put it, without the decoder: which bytes are which options,
    which options are legal, and what a message says: of each option the last one counts. */
module Manual {
  import opened Wire
  import opened Msg
  import opened Tlv
  import opened Codec
  import E = Events

  // ---------------------------------------------------------------- numbers and options

  // Numbers, most significant byte first.

  function Two(b: seq<byte>): (n: u16)
    requires |b| == 2
  {
    b[0] as int * 0x100 + b[1]
  }

  function Four(b: seq<byte>): (n: u32)
    requires |b| == 4
  {
    b[0] as int * 0x100_0000 + b[1] as int * 0x1_0000 + b[2] as int * 0x100 + b[3]
  }

  function Eight(b: seq<byte>): (n: u64)
    requires |b| == 8
  {
    b[0] as int * 0x100_0000_0000_0000 + b[1] as int * 0x1_0000_0000_0000 + b[2] as int * 0x100_0000_0000
    + b[3] as int * 0x1_0000_0000 + b[4] as int * 0x100_0000 + b[5] as int * 0x1_0000 + b[6] as int * 0x100 + b[7]
  }

  lemma FourIs(b: seq<byte>)
    requires |b| == 4
    ensures Four(b) == Get32(b)
  {
  }

  lemma EightIs(b: seq<byte>)
    requires |b| == 8
    ensures Eight(b) == Get64(b)
  {
    FourIs(b[..4]);
    FourIs(b[4..]);
  }

  /** An option: its kind and its length in two bytes each, and its data. */
  function Spelled(ts: seq<Opt>): (b: seq<byte>)
    requires AllEncodable(ts)
  {
    if ts == [] then []
    else
      var t := ts[0];
      assert Encodable(t);
      var head: seq<byte> := [t.kind / 256, t.kind % 256, |t.data| / 256, |t.data| % 256];
      head + t.data + Spelled(ts[1..])
  }

  lemma {:induction false} SpelledIsEncoded(ts: seq<Opt>)
    requires AllEncodable(ts)
    ensures Spelled(ts) == EncodeAll(ts)
  {
    if ts != [] {
      SpelledIsEncoded(ts[1..]);
    }
  }

  /** A payload is read as the options it spells, and refused if it spells none. */
  lemma SpelledExactly(p: seq<byte>, ts: seq<Opt>)
    ensures Parse(p) == Some(ts) <==> AllEncodable(ts) && p == Spelled(ts)
  {
    ParseExact(p);
    if AllEncodable(ts) {
      SpelledIsEncoded(ts);
    }
    if Parse(p) == Some(ts) {
      EncodeParse(p);
    }
  }

  type Table = map<u16, seq<byte>>

  /** What the options say: of each kind, the last one. */
  function Tabled(ts: seq<Opt>): (t: Table) {
    if ts == [] then map[] else Tabled(ts[..|ts| - 1])[ts[|ts| - 1].kind := ts[|ts| - 1].data]
  }

  /** The number an option holds in two or four bytes, 0 without it. */
  function Short(t: Table, kind: u16): (v: u16) {
    if kind in t && |t[kind]| == 2 then Two(t[kind]) else 0
  }

  function Word(t: Table, kind: u16): (v: u32) {
    if kind in t && |t[kind]| == 4 then Four(t[kind]) else 0
  }

  /** The byte an option holds. */
  function Byte(t: Table, kind: u16): (v: Option<byte>) {
    if kind in t && |t[kind]| == 1 then Some(t[kind][0]) else None
  }

  // ---------------------------------------------------------------- node infos

  /** Node id and data centre take four bytes, the state one. */
  predicate InfoLegal(t: Opt) {
    && (t.kind == 9 || t.kind == 15 ==> |t.data| == 4)
    && (t.kind == 16 ==> |t.data| == 1)
  }

  /** A node info holds legal options and names its node. */
  predicate Naming(d: seq<byte>) {
    var us := Parse(d);
    us.Some? && (forall u :: u in us.value ==> InfoLegal(u)) && 9 in Tabled(us.value)
  }

  function InfoSaid(t: Table): (ni: NodeInfo) {
    NodeInfo(Word(t, 9), Word(t, 15), if Byte(t, 16).Some? then Byte(t, 16).value else 0)
  }

  lemma {:induction false} InfoRead(us: seq<Opt>)
    ensures FoldOpts(InfoOption, NoInfo, us)
            == if forall u :: u in us ==> InfoLegal(u) then Some(InfoAcc(InfoSaid(Tabled(us)), 9 in Tabled(us)))
               else None
  {
    if us != [] {
      var init, u := us[..|us| - 1], us[|us| - 1];
      assert us == init + [u];
      InfoRead(init);
      FoldOptsAppend(InfoOption, NoInfo, init, [u]);
      var a := InfoAcc(InfoSaid(Tabled(init)), 9 in Tabled(init));
      FoldLast(InfoOption, a, u);
      InfoMore(Tabled(init), u);
    }
  }

  lemma FoldLast<A>(f: (A, Opt) -> Option<A>, a: A, t: Opt)
    ensures FoldOpts(f, a, [t]) == f(a, t)
  {
    match f(a, t)
    case None =>
    case Some(b) => assert FoldOpts(f, b, [t][1..]) == Some(b);
  }

  lemma InfoMore(t: Table, u: Opt)
    ensures InfoOption(InfoAcc(InfoSaid(t), 9 in t), u)
            == if InfoLegal(u) then Some(InfoAcc(InfoSaid(t[u.kind := u.data]), 9 in t[u.kind := u.data])) else None
  {
    if |u.data| == 4 {
      FourIs(u.data);
    }
  }

  lemma InfoByManual(d: seq<byte>)
    ensures DecodeNodeInfo(d) == if Naming(d) then Some(InfoSaid(Tabled(Parse(d).value))) else None
  {
    FoldParsed(InfoOption, NoInfo, d);
    if Parse(d).Some? {
      InfoRead(Parse(d).value);
    }
  }

  // ---------------------------------------------------------------- messages

  /** The length an option must have, and the values its first byte may take. */
  predicate Legal(t: Opt) {
    var n := |t.data|;
    match t.kind
    case 0 => n == 4
    case 2 => n == 1 && t.data[0] <= 2
    case 3 => n == 1
    case 4 => n % 2 == 0
    case 5 => n % 2 == 0
    case 9 => n == 4
    case 11 => n == 2
    case 12 => n == 4
    case 13 => n == 12
    case 14 => n == 8
    case 17 => Naming(t.data)
    case 18 => n == 1 && t.data[0] <= 3
    case 19 => n == 1 && t.data[0] <= 5
    case 20 => n == 1 && t.data[0] <= 1
    case 21 => n == 5 && 1 <= t.data[0] <= 3
    case 22 => n == 1 && t.data[0] <= 2
    case 23 => n == 1
    case _ => true
  }

  /** The node infos of a message, in order. */
  function Infos(ts: seq<Opt>): (l: NodeList) {
    if ts == [] then []
    else
      var t := ts[|ts| - 1];
      var l := Infos(ts[..|ts| - 1]);
      if t.kind == 17 && Naming(t.data) then l + [InfoSaid(Tabled(Parse(t.data).value))] else l
  }

  function RingSaid(t: Table): (r: RingId) {
    if 13 in t && |t[13]| == 12 then RingId(Four(t[13][..4]), Eight(t[13][4..])) else RingId(0, 0)
  }

  function ModeSaid(b: byte): (m: TieBreakerMode) {
    match b
    case 1 => Lowest
    case 2 => Highest
    case _ => ByNodeId
  }

  function TieBreakerSaid(t: Table): (r: TieBreaker) {
    if 21 in t && |t[21]| == 5 then TieBreaker(ModeSaid(t[21][0]), Four(t[21][1..])) else TieBreaker(Lowest, 0)
  }

  function ListTypeSaid(b: Option<byte>): (r: Option<NodeListType>) {
    match b
    case None => None
    case Some(0) => Some(InitialConfig)
    case Some(1) => Some(ChangedConfig)
    case Some(2) => Some(Membership)
    case Some(_) => Some(Quorum)
  }

  function VoteSaid(b: Option<byte>): (r: Option<Vote>) {
    match b
    case None => None
    case Some(0) => Some(VoteUndefined)
    case Some(1) => Some(Ack)
    case Some(2) => Some(Nack)
    case Some(3) => Some(AskLater)
    case Some(4) => Some(WaitForReply)
    case Some(_) => Some(NoChange)
  }

  function HeuristicsSaid(b: Option<byte>): (r: Heuristics) {
    match b
    case Some(1) => Pass
    case Some(2) => Fail
    case _ => HeurUndefined
  }

  /** What a message with the options `t` and the node list `l` says. */
  function Sense(t: Table, l: NodeList): (m: Decoded) {
    Decoded(seqNumberSet := 0 in t, seqNumber := Word(t, 0), clusterName := if 1 in t then t[1] else [],
            tlsSupported := Byte(t, 2), tlsClientCertRequired := Byte(t, 3),
            supportedMessages := 4 in t, supportedOptions := 5 in t,
            nodeIdSet := 9 in t, nodeId := Word(t, 9), algorithmSet := 11 in t, algorithm := Short(t, 11),
            heartbeatSet := 12 in t, heartbeat := Word(t, 12), ringSet := 13 in t, ring := RingSaid(t),
            configVersion := if 14 in t && |t[14]| == 8 then Some(Eight(t[14])) else None,
            nodes := l, listType := ListTypeSaid(Byte(t, 18)), vote := VoteSaid(Byte(t, 19)),
            quorate := Byte(t, 20), tieBreakerSet := 21 in t, tieBreaker := TieBreakerSaid(t),
            heuristics := HeuristicsSaid(Byte(t, 22)), keepActive := Byte(t, 23))
  }

  lemma IllegalRefused(m: Decoded, t: Opt)
    ensures MsgOption(m, t).None? <==> !Legal(t) || (t.kind == 17 && |m.nodes| >= 16)
  {
    InfoByManual(t.data);
  }

  lemma WordMore(a: Table, l: NodeList, t: Opt)
    requires (t.kind == 0 || t.kind == 9 || t.kind == 12) && |t.data| == 4
    ensures MsgOption(Sense(a, l), t) == Some(Sense(a[t.kind := t.data], l))
  {
    FourIs(t.data);
  }

  lemma HalfMore(a: Table, l: NodeList, t: Opt)
    requires t.kind == 11 && |t.data| == 2
    ensures MsgOption(Sense(a, l), t) == Some(Sense(a[t.kind := t.data], l))
  {
  }

  lemma LongMore(a: Table, l: NodeList, t: Opt)
    requires t.kind == 14 && |t.data| == 8
    ensures MsgOption(Sense(a, l), t) == Some(Sense(a[t.kind := t.data], l))
  {
    EightIs(t.data);
  }

  lemma RingMore(a: Table, l: NodeList, t: Opt)
    requires t.kind == 13 && |t.data| == 12
    ensures MsgOption(Sense(a, l), t) == Some(Sense(a[t.kind := t.data], l))
  {
    FourIs(t.data[..4]);
    EightIs(t.data[4..]);
  }

  lemma TieBreakerMore(a: Table, l: NodeList, t: Opt)
    requires t.kind == 21 && |t.data| == 5 && 1 <= t.data[0] <= 3
    ensures MsgOption(Sense(a, l), t) == Some(Sense(a[t.kind := t.data], l))
  {
    FourIs(t.data[1..]);
  }

  lemma TlsMore(a: Table, l: NodeList, t: Opt)
    requires (t.kind == 2 || t.kind == 3) && |t.data| == 1 && (t.kind == 2 ==> t.data[0] <= 2)
    ensures MsgOption(Sense(a, l), t) == Some(Sense(a[t.kind := t.data], l))
  {
  }

  lemma ListTypeMore(a: Table, l: NodeList, t: Opt)
    requires t.kind == 18 && |t.data| == 1 && t.data[0] <= 3
    ensures MsgOption(Sense(a, l), t) == Some(Sense(a[t.kind := t.data], l))
  {
  }

  lemma VoteMore(a: Table, l: NodeList, t: Opt)
    requires t.kind == 19 && |t.data| == 1 && t.data[0] <= 5
    ensures MsgOption(Sense(a, l), t) == Some(Sense(a[t.kind := t.data], l))
  {
  }

  lemma FlagMore(a: Table, l: NodeList, t: Opt)
    requires (t.kind == 20 || t.kind == 23) && |t.data| == 1 && (t.kind == 20 ==> t.data[0] <= 1)
    ensures MsgOption(Sense(a, l), t) == Some(Sense(a[t.kind := t.data], l))
  {
  }

  lemma HeuristicsMore(a: Table, l: NodeList, t: Opt)
    requires t.kind == 22 && |t.data| == 1 && t.data[0] <= 2
    ensures MsgOption(Sense(a, l), t) == Some(Sense(a[t.kind := t.data], l))
  {
  }

  /** Other options count by being there, or not at all. */
  lemma OtherMore(a: Table, l: NodeList, t: Opt)
    requires Legal(t) && t.kind !in {0, 2, 3, 9, 11, 12, 13, 14, 17, 18, 19, 20, 21, 22, 23}
    ensures MsgOption(Sense(a, l), t) == Some(Sense(a[t.kind := t.data], l))
  {
  }

  /** One more option that is not a node info. */
  lemma OptionMore(a: Table, l: NodeList, t: Opt)
    requires Legal(t) && t.kind != 17
    ensures MsgOption(Sense(a, l), t) == Some(Sense(a[t.kind := t.data], l))
  {
    match t.kind
    case 0 => WordMore(a, l, t);
    case 9 => WordMore(a, l, t);
    case 12 => WordMore(a, l, t);
    case 11 => HalfMore(a, l, t);
    case 14 => LongMore(a, l, t);
    case 13 => RingMore(a, l, t);
    case 21 => TieBreakerMore(a, l, t);
    case 2 => TlsMore(a, l, t);
    case 3 => TlsMore(a, l, t);
    case 18 => ListTypeMore(a, l, t);
    case 19 => VoteMore(a, l, t);
    case 20 => FlagMore(a, l, t);
    case 23 => FlagMore(a, l, t);
    case 22 => HeuristicsMore(a, l, t);
    case _ => OtherMore(a, l, t);
  }

  lemma InfoAdded(a: Table, l: NodeList, t: Opt)
    requires Legal(t) && t.kind == 17 && |l| < 16
    ensures MsgOption(Sense(a, l), t)
            == Some(Sense(a[t.kind := t.data], l + [InfoSaid(Tabled(Parse(t.data).value))]))
  {
    InfoByManual(t.data);
  }

  lemma {:induction false} MessageRead(ts: seq<Opt>)
    ensures FoldOpts(MsgOption, Blank(), ts)
            == if (forall t :: t in ts ==> Legal(t)) && |Infos(ts)| <= 16 then Some(Sense(Tabled(ts), Infos(ts)))
               else None
  {
    if ts != [] {
      var init, t := ts[..|ts| - 1], ts[|ts| - 1];
      assert ts == init + [t];
      MessageRead(init);
      FoldOptsAppend(MsgOption, Blank(), init, [t]);
      if FoldOpts(MsgOption, Blank(), init).Some? {
        var a, l := Tabled(init), Infos(init);
        FoldLast(MsgOption, Sense(a, l), t);
        IllegalRefused(Sense(a, l), t);
        if MsgOption(Sense(a, l), t).Some? {
          if t.kind == 17 {
            InfoAdded(a, l, t);
          } else {
            OptionMore(a, l, t);
          }
        }
      }
    }
  }

  /** A payload is decoded if and only if it spells legal options, at most 16 node infos among them;
      then every field is what the last option of its kind says, and the nodes are all the infos. */
  lemma DecodedByManual(p: seq<byte>)
    ensures Decode(p)
            == match Parse(p)
               case None => None
               case Some(ts) => if (forall t :: t in ts ==> Legal(t)) && |Infos(ts)| <= 16
                                then Some(Sense(Tabled(ts), Infos(ts))) else None
  {
    FoldParsed(MsgOption, Blank(), p);
    if Parse(p).Some? {
      MessageRead(Parse(p).value);
    }
  }
}
