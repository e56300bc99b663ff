/**
 * pract3/microbit_sim_p3_Solution.py: a sink advertising its rank and sensors
 * building a routing tree from those adverts. A sensor joins the first node it
 * hears, re-parents only on a strictly better rank, and relays TEMP readings
 * hop by hop to its parent.
 */
module RankRouting {
  import opened Medium
  import opened Radio

  /** Transmission range; a frame from further away is dropped. */
  const RADIO_TXDISTANCE: real := 1.5
  /** Channel every node of this version starts on and keeps. */
  const RADIO_CHANNEL := 99
  /** The rank a sink starts with and keeps. */
  const SINK_RANK := 1
  /** Final destination written into every TEMP reading. */
  const SINK_ID := 1
  /** `join_node == 0` means the sensor has no parent yet. */
  const NO_PARENT := 0

  /** The part of the sender a frame carries: its id and its position. */
  datatype Origin = Origin(id: int, x: real, y: real)

  /** The JSON messages of this version, one constructor per TYPE. */
  datatype Payload =
    | Join(src: int, dst: int, lsrc: int, ldst: int, rnk: int, seqNo: int)
    | Temp(src: int, dst: int, lsrc: int, ldst: int, seqNo: int, data: int)

  type Frame = Radio.Frame<Origin, Payload>

  datatype SinkState = SinkState(channel: int, sqnr: int, rank: int)

  datatype SensorState = SensorState(channel: int, sqnr: int, rank: int, joinNode: int)

  /** What the sink hands to its MQTT client: `publish(DATA, SRC)`. */
  datatype Report = Report(node: int, data: int)

  /** A JOIN or TEMP arriving at a node, with the loss draw made for it. */
  datatype Delivery = Delivery(f: Frame, draw: int)

  /** The range check of this version: further than 1.5 from the sender. */
  predicate TooFar(me: Origin, f: Frame) {
    OutOfReach(f.from.x, f.from.y, me.x, me.y, RADIO_TXDISTANCE)
  }

  /** The link fields of the tuple repeat LSRC and LDST of the message. */
  predicate LinkFieldsMatch(f: Frame) {
    f.lsrc == f.payload.lsrc && f.ldst == f.payload.ldst
  }

  /**
   * `Node.receive` for a node `me` listening on `channel`; the link-quality
   * check is the range, and the rest of the chain is `Filter`'s.
   */
  function Receive(me: Origin, channel: int, f: Frame, draw: int): (r: Reception<Payload>)
    requires LossDraw(draw)
    ensures r == Rejected(OutOfRange) <==> f.channel == channel && f.lsrc != me.id && TooFar(me, f)
  {
    Filter(me.id, channel, f, !TooFar(me, f), draw)
  }

  // ----- the sink -----

  /** One iteration of `Sink.main_p`: a broadcast JOIN carrying the sink's rank. */
  function SinkTimer(at: Origin, s: SinkState): (r: Step<SinkState, Frame>)
    ensures r.next == s.(sqnr := s.sqnr + 1)
    ensures |r.sent| == 1
    ensures SentFrom(r.sent[0], at, at.id, s.channel) && LinkFieldsMatch(r.sent[0])
    ensures r.sent[0].ldst == BROADCAST
    ensures r.sent[0].payload == Join(at.id, BROADCAST, at.id, BROADCAST, s.rank, r.next.sqnr)
  {
    var p := Join(at.id, BROADCAST, at.id, BROADCAST, s.rank, s.sqnr + 1);
    Step(s.(sqnr := s.sqnr + 1), [Frame(at, s.channel, at.id, p.ldst, p)])
  }

  /** One iteration of `Sink.receive_p`: an accepted TEMP is published, nothing else is. */
  function SinkReceive(at: Origin, s: SinkState, f: Frame, draw: int): (r: Option<Report>)
    requires LossDraw(draw)
    ensures r.Some? <==> Receive(at, s.channel, f, draw).Accepted? && f.payload.Temp?
    ensures r.Some? ==> r.value == Report(f.payload.src, f.payload.data)
  {
    match Receive(at, s.channel, f, draw)
    case Accepted(Temp(src, _, _, _, _, data)) => Some(Report(src, data))
    case _ => None
  }

  // ----- the sensor -----

  /**
   * The JOIN rule of `Sensor.receive_p`: an unjoined sensor adopts the
   * advertiser; a joined one re-parents only on a strictly better rank.
   */
  function Adopt(s: SensorState, src: int, rnk: int): (r: SensorState)
    ensures r.channel == s.channel && r.sqnr == s.sqnr
    ensures s.joinNode == NO_PARENT ==> r.joinNode == src && r.rank == rnk + 1
    ensures s.joinNode != NO_PARENT && rnk + 1 < s.rank ==> r.joinNode == src && r.rank == rnk + 1
    ensures s.joinNode != NO_PARENT && rnk + 1 >= s.rank ==> r == s
    ensures s.joinNode != NO_PARENT ==> r.rank <= s.rank
  {
    if s.joinNode == NO_PARENT || rnk + 1 < s.rank then s.(joinNode := src, rank := rnk + 1)
    else s
  }

  /** The TEMP a relaying sensor sends on: only the link fields change. */
  function Relayed(p: Payload, id: int, parent: int): (q: Payload)
    requires p.Temp?
    ensures q == p.(lsrc := id, ldst := parent)
  {
    Temp(p.src, p.dst, id, parent, p.seqNo, p.data)
  }

  /**
   * One iteration of `Sensor.main_p`: a joined sensor reports a reading to its
   * parent and then advertises its own rank; an unjoined one stays silent.
   */
  function SensorTimer(at: Origin, s: SensorState, temp: int): (r: Step<SensorState, Frame>)
    requires Temperature(temp)
    ensures s.joinNode == NO_PARENT ==> r == Step(s, [])
    ensures s.joinNode != NO_PARENT ==>
      && r.next == s.(sqnr := s.sqnr + 2)
      && |r.sent| == 2
      && SentFrom(r.sent[0], at, at.id, s.channel) && LinkFieldsMatch(r.sent[0])
      && SentFrom(r.sent[1], at, at.id, s.channel) && LinkFieldsMatch(r.sent[1])
      && r.sent[0].ldst == s.joinNode
      && r.sent[0].payload == Temp(at.id, SINK_ID, at.id, s.joinNode, s.sqnr + 1, temp)
      && r.sent[1].ldst == BROADCAST
      && r.sent[1].payload == Join(at.id, BROADCAST, at.id, BROADCAST, s.rank, s.sqnr + 2)
  {
    if s.joinNode == NO_PARENT then Step(s, [])
    else
      var t := Temp(at.id, SINK_ID, at.id, s.joinNode, s.sqnr + 1, temp);
      var j := Join(at.id, BROADCAST, at.id, BROADCAST, s.rank, s.sqnr + 2);
      Step(s.(sqnr := s.sqnr + 2),
           [Frame(at, s.channel, at.id, t.ldst, t), Frame(at, s.channel, at.id, j.ldst, j)])
  }

  /**
   * One iteration of `Sensor.receive_p`. A rejected frame changes nothing.
   * It never touches the channel or the sequence number, and sends at most
   * the one relayed TEMP.
   */
  function SensorReceive(at: Origin, s: SensorState, f: Frame, draw: int): (r: Step<SensorState, Frame>)
    requires LossDraw(draw)
    ensures !Receive(at, s.channel, f, draw).Accepted? ==> r == Step(s, [])
    ensures r.next.channel == s.channel && r.next.sqnr == s.sqnr
    ensures |r.sent| <= 1
    ensures r.sent != [] <==>
              Receive(at, s.channel, f, draw).Accepted? && f.payload.Temp? && s.joinNode != NO_PARENT
    ensures r.sent != [] ==>
              SentFrom(r.sent[0], at, at.id, s.channel) && LinkFieldsMatch(r.sent[0])
              && r.sent[0].ldst == s.joinNode
  {
    match Receive(at, s.channel, f, draw)
    case Rejected(_) => Step(s, [])
    case Accepted(p) =>
      match p
      case Join(src, _, _, _, rnk, _) => Step(Adopt(s, src, rnk), [])
      case Temp(_, _, _, _, _, _) =>
        if s.joinNode == NO_PARENT then Step(s, [])
        else
          var q := Relayed(p, at.id, s.joinNode);
          Step(s, [Frame(at, s.channel, at.id, q.ldst, q)])
  }

  lemma SensorJoinRule(at: Origin, s: SensorState, f: Frame, draw: int)
    requires LossDraw(draw)
    requires Receive(at, s.channel, f, draw).Accepted? && f.payload.Join?
    ensures var r := SensorReceive(at, s, f, draw);
      && r.sent == []
      && (s.joinNode == NO_PARENT ==>
            r.next == s.(joinNode := f.payload.src, rank := f.payload.rnk + 1))
      && (s.joinNode != NO_PARENT ==>
            (r.next != s <==> f.payload.rnk + 1 < s.rank)
            && (r.next != s ==> r.next == s.(joinNode := f.payload.src, rank := f.payload.rnk + 1)))
  {
  }

  lemma SensorRelaysTemp(at: Origin, s: SensorState, f: Frame, draw: int)
    requires LossDraw(draw)
    requires Receive(at, s.channel, f, draw).Accepted? && f.payload.Temp?
    ensures var r := SensorReceive(at, s, f, draw);
      && r.next == s
      && (s.joinNode == NO_PARENT ==> r.sent == [])
      && (s.joinNode != NO_PARENT ==>
            && |r.sent| == 1
            && r.sent[0].from == at && r.sent[0].lsrc == at.id
            && r.sent[0].channel == s.channel && r.sent[0].ldst == s.joinNode
            && r.sent[0].payload.Temp?
            && r.sent[0].payload.lsrc == at.id && r.sent[0].payload.ldst == s.joinNode
            && r.sent[0].payload.src == f.payload.src && r.sent[0].payload.dst == f.payload.dst
            && r.sent[0].payload.seqNo == f.payload.seqNo && r.sent[0].payload.data == f.payload.data)
  {
  }

  // ----- a run of receive steps at one sensor -----

  /** Every JOIN among the deliveries names a real node (ids are positive). */
  predicate FromNodes(ds: seq<Delivery>) {
    forall i :: 0 <= i < |ds| ==> LossDraw(ds[i].draw) && (ds[i].f.payload.Join? ==> ds[i].f.payload.src > 0)
  }

  function ReceiveAll(at: Origin, s: SensorState, ds: seq<Delivery>): SensorState
    requires FromNodes(ds)
    decreases |ds|
  {
    if ds == [] then s
    else ReceiveAll(at, SensorReceive(at, s, ds[0].f, ds[0].draw).next, ds[1..])
  }

  /** Once joined, a sensor stays joined and its rank never increases. */
  lemma {:induction false} JoinedRankNeverIncreases(at: Origin, s: SensorState, ds: seq<Delivery>)
    requires FromNodes(ds)
    requires s.joinNode != NO_PARENT
    ensures ReceiveAll(at, s, ds).joinNode != NO_PARENT
    ensures ReceiveAll(at, s, ds).rank <= s.rank
    decreases |ds|
  {
    if ds != [] {
      var t := SensorReceive(at, s, ds[0].f, ds[0].draw).next;
      assert t.joinNode != NO_PARENT && t.rank <= s.rank;
      JoinedRankNeverIncreases(at, t, ds[1..]);
    }
  }

  // ----- the nodes as objects -----

  class Sink {
    const id: int
    const x: real
    const y: real
    const media: Media<Frame>
    /** Index of the pipe `get_output_conn` registered for this node. */
    const inbox: nat
    var channel: int
    var sqnr: int
    var rank: int

    ghost predicate Valid()
      reads media
    {
      inbox < |media.pipes|
    }

    function At(): Origin {
      Origin(id, x, y)
    }

    function State(): SinkState
      reads this
    {
      SinkState(channel, sqnr, rank)
    }

    constructor (media: Media<Frame>, id: int, x: real, y: real)
      modifies media
      ensures Valid()
      ensures this.media == media && At() == Origin(id, x, y)
      ensures State() == SinkState(RADIO_CHANNEL, 0, SINK_RANK)
      ensures media.pipes == old(media.pipes) + [[]] && inbox == |old(media.pipes)|
    {
      var k := media.GetOutputConn();
      this.id := id;
      this.x := x;
      this.y := y;
      this.media := media;
      inbox := k;
      channel := RADIO_CHANNEL;
      sqnr := 0;
      rank := SINK_RANK;
    }

    method OnTimer() returns (sent: seq<Frame>)
      requires Valid()
      modifies this, media
      ensures Valid()
      ensures Step(State(), sent) == SinkTimer(At(), old(State()))
      ensures media.pipes == BroadcastAll(old(media.pipes), sent)
    {
      sqnr := sqnr + 1;
      var p := Join(id, BROADCAST, id, BROADCAST, rank, sqnr);
      var f, status := Send(media, At(), channel, id, p.ldst, p);
      assert status == Delivered;
      sent := [f];
      assert media.pipes == BroadcastAll(old(media.pipes), sent);
    }

    /** Receiving changes none of the sink's fields: the method modifies nothing. */
    method OnReceive(f: Frame, draw: int) returns (report: Option<Report>)
      requires LossDraw(draw)
      ensures report == SinkReceive(At(), State(), f, draw)
    {
      var heard := Receive(At(), channel, f, draw);
      report := None;
      if heard.Accepted? && heard.payload.Temp? {
        report := Some(Report(heard.payload.src, heard.payload.data));
      }
    }
  }

  class Sensor {
    const id: int
    const x: real
    const y: real
    const media: Media<Frame>
    const inbox: nat
    var channel: int
    var sqnr: int
    var rank: int
    var joinNode: int

    ghost predicate Valid()
      reads media
    {
      inbox < |media.pipes|
    }

    function At(): Origin {
      Origin(id, x, y)
    }

    function State(): SensorState
      reads this
    {
      SensorState(channel, sqnr, rank, joinNode)
    }

    constructor (media: Media<Frame>, id: int, x: real, y: real)
      modifies media
      ensures Valid()
      ensures this.media == media && At() == Origin(id, x, y)
      ensures State() == SensorState(RADIO_CHANNEL, 0, 0, NO_PARENT)
      ensures media.pipes == old(media.pipes) + [[]] && inbox == |old(media.pipes)|
    {
      var k := media.GetOutputConn();
      this.id := id;
      this.x := x;
      this.y := y;
      this.media := media;
      inbox := k;
      channel := RADIO_CHANNEL;
      sqnr := 0;
      rank := 0;
      joinNode := NO_PARENT;
    }

    method OnTimer(temp: int) returns (sent: seq<Frame>)
      requires Valid() && Temperature(temp)
      modifies this, media
      ensures Valid()
      ensures Step(State(), sent) == SensorTimer(At(), old(State()), temp)
      ensures media.pipes == BroadcastAll(old(media.pipes), sent)
    {
      sent := [];
      if joinNode != NO_PARENT {
        sqnr := sqnr + 1;
        var t := Temp(id, SINK_ID, id, joinNode, sqnr, temp);
        var f1, s1 := Send(media, At(), channel, id, t.ldst, t);
        assert s1 == Delivered;
        sqnr := sqnr + 1;
        var j := Join(id, BROADCAST, id, BROADCAST, rank, sqnr);
        var f2, s2 := Send(media, At(), channel, id, j.ldst, j);
        assert s2 == Delivered;
        sent := [f1, f2];
        assert media.pipes == BroadcastAll(BroadcastAll(old(media.pipes), [f1]), [f2]);
        assert media.pipes == BroadcastAll(old(media.pipes), sent);
      }
    }

    method OnReceive(f: Frame, draw: int) returns (sent: seq<Frame>)
      requires Valid() && LossDraw(draw)
      modifies this, media
      ensures Valid()
      ensures Step(State(), sent) == SensorReceive(At(), old(State()), f, draw)
      ensures media.pipes == BroadcastAll(old(media.pipes), sent)
    {
      sent := [];
      var heard := Receive(At(), channel, f, draw);
      if heard.Accepted? {
        var p := heard.payload;
        if p.Join? {
          if joinNode == NO_PARENT {
            joinNode := p.src;
            rank := p.rnk + 1;
          } else if p.rnk + 1 < rank {
            joinNode := p.src;
            rank := p.rnk + 1;
          }
        } else if joinNode != NO_PARENT {
          var q := Relayed(p, id, joinNode);
          var g, status := Send(media, At(), channel, id, q.ldst, q);
          assert status == Delivered;
          sent := [g];
          assert media.pipes == BroadcastAll(old(media.pipes), sent);
        }
      }
    }
  }
}
