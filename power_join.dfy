/**
 * pract1/microbit_sim_power.py: the link is decided by received power, the
 * sender's transmission power over the squared distance; every sink announces
 * a channel once, and a sensor follows the first announcement it hears.
 */
module PowerJoin {
  import opened Medium
  import opened Radio

  /** Below this received power a frame is dropped. */
  const RADIO_MIN_POWER: real := 2.0
  /** The channel every node starts on, and the one the sinks announce on. */
  const RADIO_CHANNEL := 7

  /** A snapshot of the sender: id, position and transmission power. */
  datatype Origin = Origin(id: int, x: real, y: real, power: real)

  /** The JSON messages of this version; a JOIN carries the announced channel in `data`. */
  datatype Payload =
    | Join(src: int, dst: int, lsrc: int, ldst: int, seqNo: int, data: int)
    | Temp(src: int, dst: int, lsrc: int, ldst: int, seqNo: int, data: int)

  type Frame = Radio.Frame<Origin, Payload>

  /** `announced` stands for the sink's generator having run its one-shot prologue. */
  datatype SinkState = SinkState(channel: int, sqnr: int, announced: bool)

  datatype SensorState = SensorState(channel: int, sqnr: int, dst: int, ldst: int, ready: bool)

  datatype Delivery = Delivery(f: Frame, draw: int)

  /** `randint(1, 6)`, the channel a sink picks. */
  predicate ChannelDraw(ch: int) {
    1 <= ch <= 6
  }

  /**
   * The received power at squared distance `d2`: the full power at distance 0,
   * otherwise the power divided by the square of the distance.
   */
  function ReceivedPower(tx: real, d2: real): (p: real)
    requires d2 >= 0.0
    ensures d2 == 0.0 ==> p == tx
    ensures d2 > 0.0 ==> p * d2 == tx
  {
    if d2 == 0.0 then tx else tx / d2
  }

  /** Away from the sender, a frame is too weak exactly when `tx < 2 * d2`. */
  lemma TooWeakIffPowerBelowDistance(tx: real, d2: real)
    requires d2 > 0.0
    ensures ReceivedPower(tx, d2) < RADIO_MIN_POWER <==> tx < RADIO_MIN_POWER * d2
  {
    var p := tx / d2;
    assert p * d2 == tx;
    if p < RADIO_MIN_POWER {
      PositiveProduct(RADIO_MIN_POWER - p, d2);
    } else {
      assert (p - RADIO_MIN_POWER) * d2 >= 0.0 by {
        if p > RADIO_MIN_POWER {
          PositiveProduct(p - RADIO_MIN_POWER, d2);
        }
      }
    }
  }

  /** With the power 8 of the main program, the link reaches exactly squared distance 4. */
  lemma PowerEightReachesDistanceTwo(d2: real)
    requires d2 >= 0.0
    ensures ReceivedPower(8.0, d2) < RADIO_MIN_POWER <==> d2 > 4.0
  {
    if d2 > 0.0 {
      TooWeakIffPowerBelowDistance(8.0, d2);
    }
  }

  predicate TooWeak(me: Origin, f: Frame) {
    ReceivedPower(f.from.power, SquaredDistance(f.from.x, f.from.y, me.x, me.y)) < RADIO_MIN_POWER
  }

  /** The link fields of the tuple repeat LSRC and LDST of the message. */
  predicate LinkFieldsMatch(f: Frame) {
    f.lsrc == f.payload.lsrc && f.ldst == f.payload.ldst
  }

  /** `Node.receive` for a node `me` listening on `channel`; the link check is the power. */
  function Receive(me: Origin, channel: int, f: Frame, draw: int): (r: Reception<Payload>)
    requires LossDraw(draw)
    ensures r == Rejected(OutOfRange) <==> f.channel == channel && f.lsrc != me.id && TooWeak(me, f)
  {
    Filter(me.id, channel, f, !TooWeak(me, f), draw)
  }

  // ----- the sink -----

  /**
   * One step of `Sink.main_p`. The first step sends a broadcast JOIN naming the
   * drawn channel `ch`, on the channel the sink is still on, and then moves to
   * `ch`; every later step only waits.
   */
  function SinkTimer(at: Origin, s: SinkState, ch: int): (r: Step<SinkState, Frame>)
    requires ChannelDraw(ch)
    ensures s.announced ==> r == Step(s, [])
    ensures !s.announced ==>
      && r.next == SinkState(ch, s.sqnr + 1, true)
      && |r.sent| == 1
      && SentFrom(r.sent[0], at, at.id, s.channel) && LinkFieldsMatch(r.sent[0])
      && r.sent[0].ldst == BROADCAST
      && r.sent[0].payload == Join(at.id, BROADCAST, at.id, BROADCAST, s.sqnr + 1, ch)
  {
    if s.announced then Step(s, [])
    else
      var p := Join(at.id, BROADCAST, at.id, BROADCAST, s.sqnr + 1, ch);
      Step(SinkState(ch, s.sqnr + 1, true), [Frame(at, s.channel, at.id, p.ldst, p)])
  }

  /** `Sink.receive_p` only logs the accepted message; it is returned here. */
  function SinkReceive(at: Origin, s: SinkState, f: Frame, draw: int): (r: Option<Payload>)
    requires LossDraw(draw)
    ensures r.Some? <==> Receive(at, s.channel, f, draw).Accepted?
    ensures r.Some? ==> r.value == f.payload
  {
    match Receive(at, s.channel, f, draw)
    case Accepted(p) => Some(p)
    case Rejected(_) => None
  }

  /**
   * The timer steps with the given channel draws, one after the other: the
   * frames of all steps, and the state after the last. Exactly one frame goes
   * out, at the first step, unless the sink has announced already.
   */
  function SinkSteps(at: Origin, s: SinkState, chs: seq<int>): (r: Step<SinkState, Frame>)
    requires forall i :: 0 <= i < |chs| ==> ChannelDraw(chs[i])
    ensures |r.sent| == if s.announced || chs == [] then 0 else 1
    ensures r.next.announced <==> s.announced || chs != []
    decreases |chs|
  {
    if chs == [] then Step(s, [])
    else
      var a := SinkTimer(at, s, chs[0]);
      var b := SinkSteps(at, a.next, chs[1..]);
      Step(b.next, a.sent + b.sent)
  }

  /** After its announcement a sink never sends again and stays where it is. */
  lemma {:induction false} AnnouncedSinkIsSilent(at: Origin, s: SinkState, chs: seq<int>)
    requires forall i :: 0 <= i < |chs| ==> ChannelDraw(chs[i])
    requires s.announced
    ensures SinkSteps(at, s, chs) == Step(s, [])
    decreases |chs|
  {
    if chs != [] {
      AnnouncedSinkIsSilent(at, s, chs[1..]);
    }
  }

  /**
   * Over any number of steps from its initial state a sink sends exactly one
   * frame: the JOIN with SEQ 1 naming its first channel draw, broadcast on
   * channel 7; it ends on the drawn channel.
   */
  lemma SinkAnnouncesOnce(at: Origin, chs: seq<int>)
    requires forall i :: 0 <= i < |chs| ==> ChannelDraw(chs[i])
    requires chs != []
    ensures var r := SinkSteps(at, SinkState(RADIO_CHANNEL, 0, false), chs);
      && r.next == SinkState(chs[0], 1, true)
      && r.sent == [Frame(at, RADIO_CHANNEL, at.id, BROADCAST, Join(at.id, BROADCAST, at.id, BROADCAST, 1, chs[0]))]
  {
    AnnouncedSinkIsSilent(at, SinkState(chs[0], 1, true), chs[1..]);
  }

  // ----- the sensor -----

  /** One iteration of `Sensor.main_p`: a ready sensor sends its reading to `ldst`. */
  function SensorTimer(at: Origin, s: SensorState, temp: int): (r: Step<SensorState, Frame>)
    requires Temperature(temp)
    ensures !s.ready ==> r == Step(s, [])
    ensures s.ready ==>
      && r.next == s.(sqnr := s.sqnr + 1)
      && |r.sent| == 1
      && SentFrom(r.sent[0], at, at.id, s.channel) && LinkFieldsMatch(r.sent[0])
      && r.sent[0].ldst == s.ldst
      && r.sent[0].payload == Temp(at.id, s.dst, at.id, s.ldst, s.sqnr + 1, temp)
  {
    if !s.ready then Step(s, [])
    else
      var t := Temp(at.id, s.dst, at.id, s.ldst, s.sqnr + 1, temp);
      Step(s.(sqnr := s.sqnr + 1), [Frame(at, s.channel, at.id, t.ldst, t)])
  }

  /** One iteration of `Sensor.receive_p`: only a sensor that is not ready takes a JOIN. */
  function SensorReceive(at: Origin, s: SensorState, f: Frame, draw: int): (r: SensorState)
    requires LossDraw(draw)
    ensures r.sqnr == s.sqnr
    ensures s.ready ==> r == s
    ensures r != s ==> r.ready
  {
    if s.ready then s
    else
      match Receive(at, s.channel, f, draw)
      case Accepted(Join(src, _, lsrc, _, _, data)) =>
        s.(channel := data, dst := src, ldst := lsrc, ready := true)
      case _ => s
  }

  lemma SensorTakesJoin(at: Origin, s: SensorState, f: Frame, draw: int)
    requires LossDraw(draw)
    ensures var r := SensorReceive(at, s, f, draw);
      && ((!s.ready && Receive(at, s.channel, f, draw).Accepted? && f.payload.Join?)
          ==> r == SensorState(f.payload.data, s.sqnr, f.payload.src, f.payload.lsrc, true))
      && ((s.ready || !Receive(at, s.channel, f, draw).Accepted? || !f.payload.Join?)
          ==> r == s)
  {
  }

  function ReceiveAll(at: Origin, s: SensorState, ds: seq<Delivery>): SensorState
    requires forall i :: 0 <= i < |ds| ==> LossDraw(ds[i].draw)
    decreases |ds|
  {
    if ds == [] then s else ReceiveAll(at, SensorReceive(at, s, ds[0].f, ds[0].draw), ds[1..])
  }

  /** Once ready, no sequence of receptions changes the sensor again. */
  lemma {:induction false} ReadySensorIsSettled(at: Origin, s: SensorState, ds: seq<Delivery>)
    requires forall i :: 0 <= i < |ds| ==> LossDraw(ds[i].draw)
    requires s.ready
    ensures ReceiveAll(at, s, ds) == s
    decreases |ds|
  {
    if ds != [] {
      ReadySensorIsSettled(at, s, ds[1..]);
    }
  }

  lemma SquaredDistanceSymmetric(x1: real, y1: real, x2: real, y2: real)
    ensures SquaredDistance(x1, y1, x2, y2) == SquaredDistance(x2, y2, x1, y1)
  {
  }

  /**
   * A starting sensor that takes a sink's announcement reports to that sink:
   * its next reading goes out on the announced channel, addressed to the sink,
   * and the sink, now on that channel, accepts it unless the loss draw drops it.
   */
  lemma AnnouncementLeadsToReports(sinkAt: Origin, at: Origin, ch: int, draw: int,
                                   temp: int, back: int)
    requires ChannelDraw(ch) && LossDraw(draw) && Temperature(temp) && LossDraw(back)
    requires back >= RADIO_LOSSRATE
    requires at.power == sinkAt.power && at.id != sinkAt.id
    requires var a := SinkTimer(sinkAt, SinkState(RADIO_CHANNEL, 0, false), ch);
      Receive(at, RADIO_CHANNEL, a.sent[0], draw).Accepted?
    ensures var a := SinkTimer(sinkAt, SinkState(RADIO_CHANNEL, 0, false), ch);
      var s := SensorReceive(at, SensorState(RADIO_CHANNEL, 0, 0, 0, false), a.sent[0], draw);
      var t := SensorTimer(at, s, temp);
      && s == SensorState(ch, 0, sinkAt.id, sinkAt.id, true)
      && t.sent == [Frame(at, ch, at.id, sinkAt.id, Temp(at.id, sinkAt.id, at.id, sinkAt.id, 1, temp))]
      && SinkReceive(sinkAt, a.next, t.sent[0], back) == Some(t.sent[0].payload)
  {
    SquaredDistanceSymmetric(sinkAt.x, sinkAt.y, at.x, at.y);
  }

  // ----- the fixed placement of the main program -----

  const S1 := Origin(1, 1.0, 0.0, 8.0)
  const N2 := Origin(2, 0.0, 1.0, 8.0)
  const N3 := Origin(3, 0.0, 2.0, 8.0)
  const N4 := Origin(4, 2.0, 1.0, 8.0)
  const N5 := Origin(5, 2.0, 2.0, 8.0)
  const S6 := Origin(6, 1.0, 3.0, 8.0)

  function Announcement(sink: Origin, ch: int): Frame
    requires ChannelDraw(ch)
  {
    SinkTimer(sink, SinkState(RADIO_CHANNEL, 0, false), ch).sent[0]
  }

  /** Sensors 2 and 4 are strong enough only for sink 1, sensors 3 and 5 only for sink 6. */
  lemma EachSensorHearsOneSink(ch: int)
    requires ChannelDraw(ch)
    ensures !TooWeak(N2, Announcement(S1, ch)) && TooWeak(N2, Announcement(S6, ch))
    ensures !TooWeak(N4, Announcement(S1, ch)) && TooWeak(N4, Announcement(S6, ch))
    ensures TooWeak(N3, Announcement(S1, ch)) && !TooWeak(N3, Announcement(S6, ch))
    ensures TooWeak(N5, Announcement(S1, ch)) && !TooWeak(N5, Announcement(S6, ch))
  {
  }

  // ----- the nodes as objects -----

  class Sink {
    const id: int
    const x: real
    const y: real
    const power: real
    const media: Media<Frame>
    const inbox: nat
    var channel: int
    var sqnr: int
    var announced: bool

    ghost predicate Valid()
      reads media
    {
      inbox < |media.pipes|
    }

    function At(): Origin {
      Origin(id, x, y, power)
    }

    function State(): SinkState
      reads this
    {
      SinkState(channel, sqnr, announced)
    }

    constructor (media: Media<Frame>, id: int, x: real, y: real, power: real)
      modifies media
      ensures Valid()
      ensures this.media == media && At() == Origin(id, x, y, power)
      ensures State() == SinkState(RADIO_CHANNEL, 0, false)
      ensures media.pipes == old(media.pipes) + [[]] && inbox == |old(media.pipes)|
    {
      var k := media.GetOutputConn();
      this.id := id;
      this.x := x;
      this.y := y;
      this.power := power;
      this.media := media;
      inbox := k;
      channel := RADIO_CHANNEL;
      sqnr := 0;
      announced := false;
    }

    method OnTimer(ch: int) returns (sent: seq<Frame>)
      requires Valid() && ChannelDraw(ch)
      modifies this, media
      ensures Valid()
      ensures Step(State(), sent) == SinkTimer(At(), old(State()), ch)
      ensures media.pipes == BroadcastAll(old(media.pipes), sent)
    {
      sent := [];
      if !announced {
        sqnr := sqnr + 1;
        var p := Join(id, BROADCAST, id, BROADCAST, sqnr, ch);
        var f, status := Send(media, At(), channel, id, p.ldst, p);
        assert status == Delivered;
        sent := [f];
        channel := ch;
        announced := true;
        assert media.pipes == BroadcastAll(old(media.pipes), sent);
      }
    }

    method OnReceive(f: Frame, draw: int) returns (logged: Option<Payload>)
      requires LossDraw(draw)
      ensures logged == SinkReceive(At(), State(), f, draw)
    {
      var heard := Receive(At(), channel, f, draw);
      logged := None;
      if heard.Accepted? {
        logged := Some(heard.payload);
      }
    }
  }

  class Sensor {
    const id: int
    const x: real
    const y: real
    const power: real
    const media: Media<Frame>
    const inbox: nat
    var channel: int
    var sqnr: int
    var dst: int
    var ldst: int
    var ready: bool

    ghost predicate Valid()
      reads media
    {
      inbox < |media.pipes|
    }

    function At(): Origin {
      Origin(id, x, y, power)
    }

    function State(): SensorState
      reads this
    {
      SensorState(channel, sqnr, dst, ldst, ready)
    }

    constructor (media: Media<Frame>, id: int, x: real, y: real, power: real)
      modifies media
      ensures Valid()
      ensures this.media == media && At() == Origin(id, x, y, power)
      ensures State() == SensorState(RADIO_CHANNEL, 0, 0, 0, false)
      ensures media.pipes == old(media.pipes) + [[]] && inbox == |old(media.pipes)|
    {
      var k := media.GetOutputConn();
      this.id := id;
      this.x := x;
      this.y := y;
      this.power := power;
      this.media := media;
      inbox := k;
      channel := RADIO_CHANNEL;
      sqnr := 0;
      dst := 0;
      ldst := 0;
      ready := false;
    }

    method OnTimer(temp: int) returns (sent: seq<Frame>)
      requires Valid() && Temperature(temp)
      modifies this, media
      ensures Valid()
      ensures Step(State(), sent) == SensorTimer(At(), old(State()), temp)
      ensures media.pipes == BroadcastAll(old(media.pipes), sent)
    {
      sent := [];
      if ready {
        sqnr := sqnr + 1;
        var t := Temp(id, dst, id, ldst, sqnr, temp);
        var f, status := Send(media, At(), channel, id, t.ldst, t);
        assert status == Delivered;
        sent := [f];
        assert media.pipes == BroadcastAll(old(media.pipes), sent);
      }
    }

    method OnReceive(f: Frame, draw: int)
      requires LossDraw(draw)
      modifies this
      ensures State() == SensorReceive(At(), old(State()), f, draw)
    {
      var heard := Receive(At(), channel, f, draw);
      if !ready && heard.Accepted? && heard.payload.Join? {
        channel := heard.payload.data;
        dst := heard.payload.src;
        ldst := heard.payload.lsrc;
        ready := true;
      }
    }
  }
}
