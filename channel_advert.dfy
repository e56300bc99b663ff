/**
 * pract2/microbit_sim_p1.py: every sink lives on its own channel (its id) and
 * advertises it on channel 7; a sensor moves to the channel of the first sink
 * it hears and reports its readings there.
 */
module ChannelAdvert {
  import opened Medium
  import opened Radio

  /** Transmission range; a frame from further away is dropped. */
  const RADIO_TXDISTANCE: real := 2.0
  /** The channel every node starts on, and the one the sinks advertise on. */
  const RADIO_CHANNEL := 7
  const ADVERT_CHANNEL := 7
  const NO_SINK := 0

  datatype Origin = Origin(id: int, x: real, y: real)

  /** The JSON messages of this version; a JOIN names the sink's channel. */
  datatype Payload =
    | Join(src: int, dst: int, lsrc: int, ldst: int, seqNo: int, channel: int)
    | Temp(src: int, dst: int, lsrc: int, ldst: int, seqNo: int, data: int)

  type Frame = Radio.Frame<Origin, Payload>

  datatype SinkState = SinkState(channel: int, sqnr: int)

  datatype SensorState = SensorState(channel: int, sqnr: int, joinNode: int)

  /** The reading a sink reports: `sensor SRC reports DATA`. */
  datatype Report = Report(node: int, data: int)

  datatype Delivery = Delivery(f: Frame, draw: int)

  /** The range check of this version: further than 2 from the sender. */
  predicate TooFar(me: Origin, f: Frame) {
    OutOfReach(f.from.x, f.from.y, me.x, me.y, RADIO_TXDISTANCE)
  }

  /** The link fields of the tuple repeat LSRC and LDST of the message. */
  predicate LinkFieldsMatch(f: Frame) {
    f.lsrc == f.payload.lsrc && f.ldst == f.payload.ldst
  }

  /** `Node.receive` for a node `me` listening on `channel`, the range being 2. */
  function Receive(me: Origin, channel: int, f: Frame, draw: int): (r: Reception<Payload>)
    requires LossDraw(draw)
    ensures r == Rejected(OutOfRange) <==> f.channel == channel && f.lsrc != me.id && TooFar(me, f)
  {
    Filter(me.id, channel, f, !TooFar(me, f), draw)
  }

  // ----- the sink -----

  /**
   * One iteration of `Sink.main_p`: switch to the advert channel, broadcast a
   * JOIN naming the sink's own channel, switch back. Whatever channel the sink
   * was on, it ends the step on its own.
   */
  function SinkTimer(at: Origin, s: SinkState): (r: Step<SinkState, Frame>)
    ensures r.next == SinkState(at.id, s.sqnr + 1)
    ensures |r.sent| == 1
    ensures SentFrom(r.sent[0], at, at.id, ADVERT_CHANNEL) && LinkFieldsMatch(r.sent[0])
    ensures r.sent[0].ldst == BROADCAST
    ensures r.sent[0].payload == Join(at.id, BROADCAST, at.id, BROADCAST, s.sqnr + 1, at.id)
  {
    var p := Join(at.id, BROADCAST, at.id, BROADCAST, s.sqnr + 1, at.id);
    Step(SinkState(at.id, s.sqnr + 1), [Frame(at, ADVERT_CHANNEL, at.id, p.ldst, p)])
  }

  /** One iteration of `Sink.receive_p`: an accepted TEMP is reported, nothing else is. */
  function SinkReceive(at: Origin, s: SinkState, f: Frame, draw: int): (r: Option<Report>)
    requires LossDraw(draw)
    ensures r.Some? <==> Receive(at, s.channel, f, draw).Accepted? && f.payload.Temp?
    ensures r.Some? ==> r.value == Report(f.payload.src, f.payload.data)
  {
    match Receive(at, s.channel, f, draw)
    case Accepted(Temp(src, _, _, _, _, data)) => Some(Report(src, data))
    case _ => None
  }

  // ----- the sensor -----

  /** One iteration of `Sensor.main_p`: a joined sensor sends its reading to its sink. */
  function SensorTimer(at: Origin, s: SensorState, temp: int): (r: Step<SensorState, Frame>)
    requires Temperature(temp)
    ensures s.joinNode == NO_SINK ==> r == Step(s, [])
    ensures s.joinNode != NO_SINK ==>
      && r.next == s.(sqnr := s.sqnr + 1)
      && |r.sent| == 1
      && SentFrom(r.sent[0], at, at.id, s.channel) && LinkFieldsMatch(r.sent[0])
      && r.sent[0].ldst == s.joinNode
      && r.sent[0].payload == Temp(at.id, s.joinNode, at.id, s.joinNode, s.sqnr + 1, temp)
  {
    if s.joinNode == NO_SINK then Step(s, [])
    else
      var t := Temp(at.id, s.joinNode, at.id, s.joinNode, s.sqnr + 1, temp);
      Step(s.(sqnr := s.sqnr + 1), [Frame(at, s.channel, at.id, t.ldst, t)])
  }

  /**
   * One iteration of `Sensor.receive_p`: only the first accepted JOIN counts.
   * The sequence number is never touched, and a joined sensor never changes.
   */
  function SensorReceive(at: Origin, s: SensorState, f: Frame, draw: int): (r: SensorState)
    requires LossDraw(draw)
    ensures r.sqnr == s.sqnr
    ensures s.joinNode != NO_SINK ==> r == s
  {
    match Receive(at, s.channel, f, draw)
    case Accepted(Join(src, _, _, _, _, channel)) =>
      if s.joinNode == NO_SINK then s.(joinNode := src, channel := channel) else s
    case _ => s
  }

  /** The first accepted JOIN moves the sensor to the advertised channel; later ones change nothing. */
  lemma SensorAdoptsFirstSink(at: Origin, s: SensorState, f: Frame, draw: int)
    requires LossDraw(draw)
    ensures var r := SensorReceive(at, s, f, draw);
      && ((Receive(at, s.channel, f, draw).Accepted? && f.payload.Join? && s.joinNode == NO_SINK)
          ==> r == s.(joinNode := f.payload.src, channel := f.payload.channel))
      && ((!(Receive(at, s.channel, f, draw).Accepted? && f.payload.Join?) || s.joinNode != NO_SINK)
          ==> r == s)
  {
  }

  /** A sensor that has left channel c hears nothing sent on c, adverts on channel 7 included. */
  lemma JoinedSensorIgnoresOtherChannels(at: Origin, s: SensorState, f: Frame, draw: int)
    requires LossDraw(draw)
    requires f.channel != s.channel
    ensures Receive(at, s.channel, f, draw) == Rejected(ChannelMismatch)
    ensures SensorReceive(at, s, f, draw) == s
  {
  }

  /**
   * A sensor that takes a sink's advert ends up joined to that sink and on the
   * sink's own channel, the one the sink is back on after its timer step; the
   * next reading goes there, addressed to the sink.
   */
  lemma AdvertLeadsToSinkChannel(sinkAt: Origin, k: SinkState, at: Origin, s: SensorState,
                                 draw: int, temp: int)
    requires LossDraw(draw) && Temperature(temp)
    requires sinkAt.id != NO_SINK
    requires s.channel == ADVERT_CHANNEL && s.joinNode == NO_SINK
    requires Receive(at, s.channel, SinkTimer(sinkAt, k).sent[0], draw).Accepted?
    ensures var t := SensorReceive(at, s, SinkTimer(sinkAt, k).sent[0], draw);
      && t.joinNode == sinkAt.id && t.channel == sinkAt.id
      && t.channel == SinkTimer(sinkAt, k).next.channel
      && SensorTimer(at, t, temp).sent[0].channel == sinkAt.id
      && SensorTimer(at, t, temp).sent[0].ldst == sinkAt.id
  {
  }

  function ReceiveAll(at: Origin, s: SensorState, ds: seq<Delivery>): SensorState
    requires forall i :: 0 <= i < |ds| ==> LossDraw(ds[i].draw)
    decreases |ds|
  {
    if ds == [] then s else ReceiveAll(at, SensorReceive(at, s, ds[0].f, ds[0].draw), ds[1..])
  }

  /** Once joined, no sequence of receptions changes the sensor again. */
  lemma {:induction false} JoinedSensorIsSettled(at: Origin, s: SensorState, ds: seq<Delivery>)
    requires forall i :: 0 <= i < |ds| ==> LossDraw(ds[i].draw)
    requires s.joinNode != NO_SINK
    ensures ReceiveAll(at, s, ds) == s
    decreases |ds|
  {
    if ds != [] {
      JoinedSensorIsSettled(at, s, ds[1..]);
    }
  }

  // ----- the fixed placement of the main program -----

  const S1 := Origin(1, 1.0, 0.0)
  const N2 := Origin(2, 0.0, 1.0)
  const N3 := Origin(3, 0.0, 2.0)
  const N4 := Origin(4, 2.0, 1.0)
  const N5 := Origin(5, 2.0, 2.0)
  const S6 := Origin(6, 1.0, 3.0)

  function Advert(sink: Origin, sqnr: int): Frame {
    SinkTimer(sink, SinkState(sink.id, sqnr)).sent[0]
  }

  /**
   * With range 2 every sensor of the placement hears the adverts of exactly one
   * sink: sensors 2 and 4 join sink 1 on channel 1, sensors 3 and 5 join sink 6
   * on channel 6.
   */
  lemma EachSensorHearsOneSink(sqnr: int)
    ensures !TooFar(N2, Advert(S1, sqnr)) && TooFar(N2, Advert(S6, sqnr))
    ensures !TooFar(N4, Advert(S1, sqnr)) && TooFar(N4, Advert(S6, sqnr))
    ensures TooFar(N3, Advert(S1, sqnr)) && !TooFar(N3, Advert(S6, sqnr))
    ensures TooFar(N5, Advert(S1, sqnr)) && !TooFar(N5, Advert(S6, sqnr))
  {
  }

  /** A starting sensor that takes an advert of the sink it can hear moves to that sink's channel. */
  lemma PlacedSensorsSettle(sqnr: int, draw: int)
    requires LossDraw(draw) && draw >= RADIO_LOSSRATE
    ensures SensorReceive(N2, SensorState(RADIO_CHANNEL, 0, NO_SINK), Advert(S1, sqnr), draw)
              == SensorState(1, 0, 1)
    ensures SensorReceive(N4, SensorState(RADIO_CHANNEL, 0, NO_SINK), Advert(S1, sqnr), draw)
              == SensorState(1, 0, 1)
    ensures SensorReceive(N3, SensorState(RADIO_CHANNEL, 0, NO_SINK), Advert(S6, sqnr), draw)
              == SensorState(6, 0, 6)
    ensures SensorReceive(N5, SensorState(RADIO_CHANNEL, 0, NO_SINK), Advert(S6, sqnr), draw)
              == SensorState(6, 0, 6)
  {
  }

  // ----- the nodes as objects -----

  class Sink {
    const id: int
    const x: real
    const y: real
    const media: Media<Frame>
    const inbox: nat
    var channel: int
    var sqnr: int

    ghost predicate Valid()
      reads media
    {
      inbox < |media.pipes|
    }

    function At(): Origin {
      Origin(id, x, y)
    }

    function State(): SinkState
      reads this
    {
      SinkState(channel, sqnr)
    }

    /** The sink leaves the shared start channel for the channel named by its id. */
    constructor (media: Media<Frame>, id: int, x: real, y: real)
      modifies media
      ensures Valid()
      ensures this.media == media && At() == Origin(id, x, y)
      ensures State() == SinkState(id, 0)
      ensures media.pipes == old(media.pipes) + [[]] && inbox == |old(media.pipes)|
    {
      var k := media.GetOutputConn();
      this.id := id;
      this.x := x;
      this.y := y;
      this.media := media;
      inbox := k;
      channel := RADIO_CHANNEL;
      sqnr := 0;
      new;
      channel := id;
    }

    method OnTimer() returns (sent: seq<Frame>)
      requires Valid()
      modifies this, media
      ensures Valid()
      ensures Step(State(), sent) == SinkTimer(At(), old(State()))
      ensures channel == id
      ensures media.pipes == BroadcastAll(old(media.pipes), sent)
    {
      channel := ADVERT_CHANNEL;
      sqnr := sqnr + 1;
      var p := Join(id, BROADCAST, id, BROADCAST, sqnr, id);
      var f, status := Send(media, At(), channel, id, p.ldst, p);
      assert status == Delivered;
      sent := [f];
      channel := id;
      assert media.pipes == BroadcastAll(old(media.pipes), sent);
    }

    /** Receiving changes none of the sink's fields: the method modifies nothing. */
    method OnReceive(f: Frame, draw: int) returns (report: Option<Report>)
      requires LossDraw(draw)
      ensures report == SinkReceive(At(), State(), f, draw)
    {
      var heard := Receive(At(), channel, f, draw);
      report := None;
      if heard.Accepted? && heard.payload.Temp? {
        report := Some(Report(heard.payload.src, heard.payload.data));
      }
    }
  }

  class Sensor {
    const id: int
    const x: real
    const y: real
    const media: Media<Frame>
    const inbox: nat
    var channel: int
    var sqnr: int
    var joinNode: int

    ghost predicate Valid()
      reads media
    {
      inbox < |media.pipes|
    }

    function At(): Origin {
      Origin(id, x, y)
    }

    function State(): SensorState
      reads this
    {
      SensorState(channel, sqnr, joinNode)
    }

    constructor (media: Media<Frame>, id: int, x: real, y: real)
      modifies media
      ensures Valid()
      ensures this.media == media && At() == Origin(id, x, y)
      ensures State() == SensorState(RADIO_CHANNEL, 0, NO_SINK)
      ensures media.pipes == old(media.pipes) + [[]] && inbox == |old(media.pipes)|
    {
      var k := media.GetOutputConn();
      this.id := id;
      this.x := x;
      this.y := y;
      this.media := media;
      inbox := k;
      channel := RADIO_CHANNEL;
      sqnr := 0;
      joinNode := NO_SINK;
    }

    method OnTimer(temp: int) returns (sent: seq<Frame>)
      requires Valid() && Temperature(temp)
      modifies this, media
      ensures Valid()
      ensures Step(State(), sent) == SensorTimer(At(), old(State()), temp)
      ensures media.pipes == BroadcastAll(old(media.pipes), sent)
    {
      sent := [];
      if joinNode != NO_SINK {
        sqnr := sqnr + 1;
        var t := Temp(id, joinNode, id, joinNode, sqnr, temp);
        var f, status := Send(media, At(), channel, id, t.ldst, t);
        assert status == Delivered;
        sent := [f];
        assert media.pipes == BroadcastAll(old(media.pipes), sent);
      }
    }

    /** A sensor sends nothing from its receive loop: the medium is not touched. */
    method OnReceive(f: Frame, draw: int)
      requires LossDraw(draw)
      modifies this
      ensures State() == SensorReceive(At(), old(State()), f, draw)
    {
      var heard := Receive(At(), channel, f, draw);
      if heard.Accepted? && heard.payload.Join? {
        if joinNode == NO_SINK {
          joinNode := heard.payload.src;
          channel := heard.payload.channel;
        }
      }
    }
  }
}
