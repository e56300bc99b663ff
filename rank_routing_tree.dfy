/**
 * The pract3 nodes running together. One event is one iteration of one node's
 * timer loop or receive loop; the scheduler may interleave them in any order.
 * `ether` holds every frame sent so far, and any of them may be delivered to
 * any node, any number of times, which covers every order in which the
 * per-node pipes of the medium can hand frames out.
 *
 * The strict-improvement re-parent rule keeps the parent links a tree: a
 * joined sensor's rank is above its parent's, so following parents reaches a
 * sink and never loops.
 */
module RankRoutingTree {
  import Radio
  import opened RankRouting

  /** The tag that replaces the Sink/Sensor subclasses. */
  datatype Node = SinkNode(at: Origin, sink: SinkState) | SensorNode(at: Origin, sensor: SensorState)

  datatype Net = Net(nodes: map<int, Node>, ether: set<Frame>)

  /** A timer iteration of node `id`, or node `id` taking frame `f` from its pipe. */
  datatype Event = Tick(id: int, temp: int) | Hear(id: int, f: Frame, draw: int)

  predicate EventOk(net: Net, e: Event) {
    && e.id in net.nodes
    && match e
       case Tick(_, temp) => Radio.Temperature(temp)
       case Hear(_, f, draw) => f in net.ether && Radio.LossDraw(draw)
  }

  function Sent(fs: seq<Frame>): set<Frame> {
    set f | f in fs
  }

  /**
   * One iteration of node `e.id`'s timer or receive loop: only that node's
   * state changes, no node moves or changes kind, and frames are only added.
   */
  function Apply(net: Net, e: Event): (r: Net)
    requires EventOk(net, e)
    ensures r.nodes.Keys == net.nodes.Keys
    ensures forall m | m in net.nodes && m != e.id :: r.nodes[m] == net.nodes[m]
    ensures forall m | m in net.nodes ::
              NodeAt(r.nodes[m]) == NodeAt(net.nodes[m]) && r.nodes[m].SinkNode? == net.nodes[m].SinkNode?
    ensures net.ether <= r.ether
  {
    match net.nodes[e.id]
    case SinkNode(at, s) =>
      (match e
       case Tick(_, _) =>
         var r := SinkTimer(at, s);
         Net(net.nodes[e.id := SinkNode(at, r.next)], net.ether + Sent(r.sent))
       // The sink's receive loop changes no field and sends nothing.
       case Hear(_, _, _) => net)
    case SensorNode(at, s) =>
      var r := match e
               case Tick(_, temp) => SensorTimer(at, s, temp)
               case Hear(_, f, draw) => SensorReceive(at, s, f, draw);
      Net(net.nodes[e.id := SensorNode(at, r.next)], net.ether + Sent(r.sent))
  }

  /**
   * The events one after the other; events whose node does not exist are
   * skipped. The nodes keep their places and kinds, and frames are never lost.
   */
  function Run(net: Net, es: seq<Event>): (r: Net)
    ensures r.nodes.Keys == net.nodes.Keys
    ensures forall m | m in net.nodes ::
              NodeAt(r.nodes[m]) == NodeAt(net.nodes[m]) && r.nodes[m].SinkNode? == net.nodes[m].SinkNode?
    ensures net.ether <= r.ether
    decreases |es|
  {
    if es == [] then net
    else Run(if EventOk(net, es[0]) then Apply(net, es[0]) else net, es[1..])
  }

  function Rank(net: Net, id: int): int
    requires id in net.nodes
  {
    match net.nodes[id]
    case SinkNode(_, s) => s.rank
    case SensorNode(_, s) => s.rank
  }

  predicate Joined(net: Net, id: int) {
    id in net.nodes && net.nodes[id].SensorNode? && net.nodes[id].sensor.joinNode != NO_PARENT
  }

  /** A sink, or a sensor that has a parent: the nodes that send JOIN adverts. */
  predicate Rooted(net: Net, id: int) {
    id in net.nodes && (net.nodes[id].SinkNode? || Joined(net, id))
  }

  /** The next hop toward a sink; a sink and an unjoined sensor are their own. */
  function Parent(net: Net, id: int): int
    requires id in net.nodes
  {
    if Joined(net, id) then net.nodes[id].sensor.joinNode else id
  }

  /** Follow parent links `k` times, stopping at a sink. */
  function Ancestor(net: Net, id: int, k: nat): int
    decreases k
  {
    if k == 0 || id !in net.nodes || net.nodes[id].SinkNode? then id
    else Ancestor(net, Parent(net, id), k - 1)
  }

  ghost predicate WellNamed(net: Net) {
    forall id | id in net.nodes :: id > 0 && net.nodes[id].at.id == id
  }

  ghost predicate SinksKeepRank(net: Net) {
    forall id | id in net.nodes && net.nodes[id].SinkNode? :: net.nodes[id].sink.rank == SINK_RANK
  }

  ghost predicate RanksPositive(net: Net) {
    forall id | Rooted(net, id) :: Rank(net, id) >= 1
  }

  /** A joined sensor's parent is a sink or a joined sensor of lower rank. */
  ghost predicate ParentsBelow(net: Net) {
    forall id | Joined(net, id) ::
      Rooted(net, Parent(net, id)) && Rank(net, Parent(net, id)) < Rank(net, id)
  }

  /** A JOIN still in the air comes from an advertising node and not below its rank. */
  ghost predicate AdvertsNotBelow(net: Net) {
    forall f | f in net.ether && f.payload.Join? ::
      Rooted(net, f.payload.src) && f.payload.rnk >= Rank(net, f.payload.src)
  }

  ghost predicate TreeInv(net: Net) {
    WellNamed(net) && SinksKeepRank(net) && RanksPositive(net) && ParentsBelow(net)
    && AdvertsNotBelow(net)
  }

  /** Every node as constructed: no frame sent, sinks at rank 1, sensors unjoined. */
  ghost predicate Initial(net: Net) {
    && net.ether == {}
    && WellNamed(net)
    && forall id | id in net.nodes ::
         match net.nodes[id]
         case SinkNode(_, s) => s == SinkState(RADIO_CHANNEL, 0, SINK_RANK)
         case SensorNode(_, s) => s == SensorState(RADIO_CHANNEL, 0, 0, NO_PARENT)
  }

  lemma InitialIsTree(net: Net)
    requires Initial(net)
    ensures TreeInv(net)
  {
  }

  lemma SinkTickKeepsTree(net: Net, e: Event)
    requires TreeInv(net) && EventOk(net, e) && e.Tick? && net.nodes[e.id].SinkNode?
    ensures TreeInv(Apply(net, e))
  {
    var net' := Apply(net, e);
    var at, s := net.nodes[e.id].at, net.nodes[e.id].sink;
    var r := SinkTimer(at, s);
    assert net'.nodes == net.nodes[e.id := SinkNode(at, r.next)];
    assert forall id | id in net.nodes :: Rooted(net', id) == Rooted(net, id) && Rank(net', id) == Rank(net, id);
    assert forall id | Joined(net, id) :: Parent(net', id) == Parent(net, id);
    forall f | f in net'.ether && f.payload.Join?
      ensures Rooted(net', f.payload.src) && f.payload.rnk >= Rank(net', f.payload.src)
    {
      if f !in net.ether {
        assert f == r.sent[0];
      }
    }
  }

  lemma SensorTickKeepsTree(net: Net, e: Event)
    requires TreeInv(net) && EventOk(net, e) && e.Tick? && net.nodes[e.id].SensorNode?
    ensures TreeInv(Apply(net, e))
  {
    var net' := Apply(net, e);
    var at, s := net.nodes[e.id].at, net.nodes[e.id].sensor;
    var r := SensorTimer(at, s, e.temp);
    assert net'.nodes == net.nodes[e.id := SensorNode(at, r.next)];
    assert forall id | id in net.nodes :: Rooted(net', id) == Rooted(net, id) && Rank(net', id) == Rank(net, id);
    assert forall id | Joined(net, id) :: Parent(net', id) == Parent(net, id);
    forall f | f in net'.ether && f.payload.Join?
      ensures Rooted(net', f.payload.src) && f.payload.rnk >= Rank(net', f.payload.src)
    {
      if f !in net.ether {
        assert f == r.sent[1];
      }
    }
  }

  /** The receive step of a sensor: adopting a parent, re-parenting, or relaying. */
  lemma SensorHearKeepsTree(net: Net, e: Event)
    requires TreeInv(net) && EventOk(net, e) && e.Hear? && net.nodes[e.id].SensorNode?
    ensures TreeInv(Apply(net, e))
  {
    var net' := Apply(net, e);
    var at, s := net.nodes[e.id].at, net.nodes[e.id].sensor;
    var r := SensorReceive(at, s, e.f, e.draw);
    assert net'.nodes == net.nodes[e.id := SensorNode(at, r.next)];
    var heard := Receive(at, s.channel, e.f, e.draw);
    if r.next == s {
      assert forall id | id in net.nodes :: Rooted(net', id) == Rooted(net, id) && Rank(net', id) == Rank(net, id);
      assert forall id | Joined(net, id) :: Parent(net', id) == Parent(net, id);
    } else {
      // Only an accepted JOIN changes the sensor; its advertiser is a rooted node.
      assert heard.Accepted? && heard.payload.Join? && heard.payload == e.f.payload;
      var src, rnk := e.f.payload.src, e.f.payload.rnk;
      assert Rooted(net, src) && rnk >= Rank(net, src);
      assert r.next == Adopt(s, src, rnk) && r.sent == [] && net'.ether == net.ether;
      assert r.next.joinNode == src && r.next.rank == rnk + 1;
      assert src != e.id;
      assert Rank(net', e.id) <= Rank(net, e.id) || s.joinNode == NO_PARENT;
      assert forall id | id in net.nodes && id != e.id ::
        Rooted(net', id) == Rooted(net, id) && Rank(net', id) == Rank(net, id)
        && Parent(net', id) == Parent(net, id);
      assert Rooted(net', src) && Rank(net', src) < Rank(net', e.id);
      forall id | Joined(net', id)
        ensures Rooted(net', Parent(net', id)) && Rank(net', Parent(net', id)) < Rank(net', id)
      {
        if id != e.id {
          assert Joined(net, id);
          if Parent(net, id) == e.id {
            assert Rooted(net, e.id);
          }
        }
      }
      forall f | f in net'.ether && f.payload.Join?
        ensures Rooted(net', f.payload.src) && f.payload.rnk >= Rank(net', f.payload.src)
      {
        assert f in net.ether;
        if f.payload.src == e.id {
          assert Rooted(net, e.id);
        }
      }
    }
  }

  lemma {:induction false} ApplyKeepsTree(net: Net, e: Event)
    requires TreeInv(net) && EventOk(net, e)
    ensures TreeInv(Apply(net, e))
  {
    match net.nodes[e.id]
    case SinkNode(_, _) =>
      if e.Tick? { SinkTickKeepsTree(net, e); }
    case SensorNode(_, _) =>
      if e.Tick? { SensorTickKeepsTree(net, e); } else { SensorHearKeepsTree(net, e); }
  }

  lemma {:induction false} RunKeepsTree(net: Net, es: seq<Event>)
    requires TreeInv(net)
    ensures TreeInv(Run(net, es))
    decreases |es|
  {
    if es != [] {
      var next := if EventOk(net, es[0]) then Apply(net, es[0]) else net;
      if EventOk(net, es[0]) {
        ApplyKeepsTree(net, es[0]);
      }
      RunKeepsTree(next, es[1..]);
    }
  }

  /** Each parent link climbs at least one rank, until a sink is reached. */
  lemma {:induction false} AncestorClimbs(net: Net, id: int, k: nat)
    requires TreeInv(net) && Rooted(net, id)
    ensures Rooted(net, Ancestor(net, id, k))
    ensures Ancestor(net, id, k) in net.nodes
    ensures net.nodes[Ancestor(net, id, k)].SinkNode? || Rank(net, Ancestor(net, id, k)) + k <= Rank(net, id)
    decreases k
  {
    if k > 0 && net.nodes[id].SensorNode? {
      AncestorClimbs(net, Parent(net, id), k - 1);
    }
  }

  /** Following parent links from a joined sensor reaches a sink within its rank. */
  lemma ParentChainReachesSink(net: Net, id: int)
    requires TreeInv(net) && Rooted(net, id)
    ensures var a := Ancestor(net, id, Rank(net, id) - 1); a in net.nodes && net.nodes[a].SinkNode?
  {
    AncestorClimbs(net, id, Rank(net, id) - 1);
  }

  /** No parent chain comes back to the sensor it started from. */
  lemma NoRoutingLoop(net: Net, id: int, k: nat)
    requires TreeInv(net) && Joined(net, id) && k >= 1
    ensures Ancestor(net, id, k) != id
  {
    AncestorClimbs(net, id, k);
  }

  /** From any placement of freshly constructed nodes, after any interleaving. */
  lemma EveryJoinedSensorReachesSink(net: Net, es: seq<Event>, id: int)
    requires Initial(net) && Rooted(Run(net, es), id)
    ensures var net' := Run(net, es);
      && Rank(net', id) >= 1
      && var a := Ancestor(net', id, Rank(net', id) - 1); a in net'.nodes && net'.nodes[a].SinkNode?
  {
    InitialIsTree(net);
    RunKeepsTree(net, es);
    ParentChainReachesSink(Run(net, es), id);
  }

  // ----- a sensor out of everybody's range -----

  function NodeAt(n: Node): Origin {
    match n
    case SinkNode(at, _) => at
    case SensorNode(at, _) => at
  }

  /** Every frame in the air was sent by the node its link source names, from where it stands. */
  ghost predicate FramesFromNodes(net: Net) {
    forall f | f in net.ether :: f.lsrc in net.nodes && NodeAt(net.nodes[f.lsrc]) == f.from
  }

  /** No other node stands within transmission range of `id`. */
  ghost predicate Isolated(net: Net, id: int) {
    && id in net.nodes
    && forall m | m in net.nodes && m != id ::
         var a, b := NodeAt(net.nodes[id]), NodeAt(net.nodes[m]);
         Radio.SquaredDistance(b.x, b.y, a.x, a.y) > RADIO_TXDISTANCE * RADIO_TXDISTANCE
  }

  /** An isolated sensor `n` that has not joined, and nothing in the air that it sent. */
  ghost predicate Stranded(net: Net, id: int, n: Node) {
    && WellNamed(net) && FramesFromNodes(net) && Isolated(net, id)
    && net.nodes[id] == n && n.SensorNode? && n.sensor.joinNode == NO_PARENT
    && forall f | f in net.ether :: f.lsrc != id
  }

  lemma StrandedStep(net: Net, e: Event, id: int, n: Node)
    requires Stranded(net, id, n) && EventOk(net, e)
    ensures Stranded(Apply(net, e), id, n)
  {
    var net' := Apply(net, e);
    var at := NodeAt(net.nodes[e.id]);
    if e.id == id {
      if e.Hear? {
        var f := e.f;
        assert f.lsrc in net.nodes && f.lsrc != id && NodeAt(net.nodes[f.lsrc]) == f.from;
        assert TooFar(at, f);
        assert !Receive(at, n.sensor.channel, f, e.draw).Accepted?;
      }
      assert net' == net;
    } else {
      var next := match net.nodes[e.id]
                  case SinkNode(_, t) => if e.Tick? then SinkTimer(at, t).sent else []
                  case SensorNode(_, t) =>
                    if e.Tick? then SensorTimer(at, t, e.temp).sent else SensorReceive(at, t, e.f, e.draw).sent;
      assert forall g | g in next :: g.lsrc == e.id && g.from == at;
      assert net'.ether == net.ether + Sent(next);
    }
  }

  lemma {:induction false} StrandedRun(net: Net, es: seq<Event>, id: int, n: Node)
    requires Stranded(net, id, n)
    ensures Stranded(Run(net, es), id, n)
    decreases |es|
  {
    if es != [] {
      if EventOk(net, es[0]) {
        StrandedStep(net, es[0], id, n);
        StrandedRun(Apply(net, es[0]), es[1..], id, n);
      } else {
        StrandedRun(net, es[1..], id, n);
      }
    }
  }

  /**
   * A sensor placed beyond the range of every other node never joins, keeps
   * its state as constructed, and never sends a frame.
   */
  lemma IsolatedSensorNeverJoins(net: Net, es: seq<Event>, id: int)
    requires Initial(net) && Isolated(net, id) && net.nodes[id].SensorNode?
    ensures id in Run(net, es).nodes && Run(net, es).nodes[id] == net.nodes[id]
    ensures !Joined(Run(net, es), id)
    ensures forall f | f in Run(net, es).ether :: f.lsrc != id
  {
    StrandedRun(net, es, id, net.nodes[id]);
  }

  // ----- the placement of pract3 -----

  const O1 := Origin(1, 1.0, 0.0)
  const O2 := Origin(2, 0.0, 1.0)
  const O3 := Origin(3, 0.0, 2.0)
  const O4 := Origin(4, 0.0, 3.0)
  const O5 := Origin(5, 2.0, 1.0)
  const O6 := Origin(6, 2.0, 2.0)
  const O7 := Origin(7, 2.0, 3.0)
  const FreshSensor := SensorState(RADIO_CHANNEL, 0, 0, NO_PARENT)

  /** Sink 1 at (1, 0) and sensors 2 to 7 on two columns, as the main program places them. */
  const Setup := Net(map[1 := SinkNode(O1, SinkState(RADIO_CHANNEL, 0, SINK_RANK)),
                         2 := SensorNode(O2, FreshSensor), 3 := SensorNode(O3, FreshSensor),
                         4 := SensorNode(O4, FreshSensor), 5 := SensorNode(O5, FreshSensor),
                         6 := SensorNode(O6, FreshSensor), 7 := SensorNode(O7, FreshSensor)], {})

  lemma SetupIsInitial()
    ensures Initial(Setup)
  {
  }

  /** The sink's first advert. */
  const Advert1 := Radio.Frame(O1, RADIO_CHANNEL, 1, Radio.BROADCAST,
                               Join(1, Radio.BROADCAST, 1, Radio.BROADCAST, SINK_RANK, 1))

  /** Of the six sensors only 2 and 5 are within range of the sink. */
  lemma OnlyTwoAndFiveHearTheSink()
    ensures forall id | id in Setup.nodes && id != 1 ::
              !TooFar(NodeAt(Setup.nodes[id]), Advert1) <==> id == 2 || id == 5
  {
  }

  function TwoHopEvents(temp: int): seq<Event> {
    [Tick(1, 30), Hear(2, Advert1, 50), Tick(2, temp), Hear(3, Join2, 50), Tick(3, temp),
     Hear(2, Temp3(temp), 50)]
  }

  const Join2 := Radio.Frame(O2, RADIO_CHANNEL, 2, Radio.BROADCAST,
                             Join(2, Radio.BROADCAST, 2, Radio.BROADCAST, 2, 2))

  function Temp3(temp: int): Frame {
    Radio.Frame(O3, RADIO_CHANNEL, 3, 2, Temp(3, SINK_ID, 3, 2, 1, temp))
  }

  function Relay3(temp: int): Frame {
    Radio.Frame(O2, RADIO_CHANNEL, 2, 1, Temp(3, SINK_ID, 2, 1, 1, temp))
  }

  /**
   * Sensor 2 joins the sink with rank 2 and advertises rank 2; sensor 3, out
   * of the sink's range, joins through 2 with rank 3; its reading is relayed
   * by 2 with link source 2 and published by the sink under source 3.
   */
  lemma TwoHopReport(temp: int)
    requires Radio.Temperature(temp)
    ensures var n := Run(Setup, TwoHopEvents(temp));
      && 2 in n.nodes && n.nodes[2] == SensorNode(O2, SensorState(RADIO_CHANNEL, 2, 2, 1))
      && 3 in n.nodes && n.nodes[3] == SensorNode(O3, SensorState(RADIO_CHANNEL, 2, 3, 2))
      && Join2 in n.ether && Relay3(temp) in n.ether
      && 1 in n.nodes && n.nodes[1].SinkNode?
      && SinkReceive(O1, n.nodes[1].sink, Relay3(temp), 50) == Radio.Some(Report(3, temp))
  {
    TwoHopRun(temp);
    var n6 := Hop6(temp);
    assert n6.nodes[1] == SinkNode(O1, SinkState(RADIO_CHANNEL, 1, SINK_RANK));
  }

  /** Run takes the first event, when it is possible, and goes on with the rest. */
  lemma RunFirst(net: Net, es: seq<Event>)
    requires es != [] && EventOk(net, es[0])
    ensures Run(net, es) == Run(Apply(net, es[0]), es[1..])
  {
  }

  lemma TwoHopRun(temp: int)
    requires Radio.Temperature(temp)
    ensures Run(Setup, TwoHopEvents(temp)) == Hop6(temp)
  {
    var es := TwoHopEvents(temp);
    Hop1Step(); Hop2Step(); Hop3Step(temp); Hop4Step(temp); Hop5Step(temp); Hop6Step(temp);
    RunFirst(Setup, es);
    RunFirst(Hop1(), es[1..]);
    RunFirst(Hop2(), es[2..]);
    RunFirst(Hop3(temp), es[3..]);
    RunFirst(Hop4(temp), es[4..]);
    RunFirst(Hop5(temp), es[5..]);
    assert es[6..] == [];
  }

  // The network after each event of TwoHopEvents.
  function Hop1(): Net {
    Net(Setup.nodes[1 := SinkNode(O1, SinkState(RADIO_CHANNEL, 1, SINK_RANK))], {Advert1})
  }
  function Hop2(): Net {
    Net(Hop1().nodes[2 := SensorNode(O2, SensorState(RADIO_CHANNEL, 0, 2, 1))], {Advert1})
  }
  function Temp2(temp: int): Frame {
    Radio.Frame(O2, RADIO_CHANNEL, 2, 1, Temp(2, SINK_ID, 2, 1, 1, temp))
  }
  function Hop3(temp: int): Net {
    Net(Hop2().nodes[2 := SensorNode(O2, SensorState(RADIO_CHANNEL, 2, 2, 1))],
        {Advert1, Temp2(temp), Join2})
  }
  function Hop4(temp: int): Net {
    Net(Hop3(temp).nodes[3 := SensorNode(O3, SensorState(RADIO_CHANNEL, 0, 3, 2))], Hop3(temp).ether)
  }
  const Join3 := Radio.Frame(O3, RADIO_CHANNEL, 3, Radio.BROADCAST,
                             Join(3, Radio.BROADCAST, 3, Radio.BROADCAST, 3, 2))
  function Hop5(temp: int): Net {
    Net(Hop4(temp).nodes[3 := SensorNode(O3, SensorState(RADIO_CHANNEL, 2, 3, 2))],
        Hop4(temp).ether + {Temp3(temp), Join3})
  }
  function Hop6(temp: int): Net {
    Net(Hop5(temp).nodes, Hop5(temp).ether + {Relay3(temp)})
  }

  lemma Hop1Step()
    ensures EventOk(Setup, Tick(1, 30)) && Apply(Setup, Tick(1, 30)) == Hop1()
  {
    assert Sent([Advert1]) == {Advert1};
  }
  lemma Hop2Step()
    ensures EventOk(Hop1(), Hear(2, Advert1, 50)) && Apply(Hop1(), Hear(2, Advert1, 50)) == Hop2()
  {
    assert Sent([]) == {};
  }
  lemma Hop3Step(temp: int)
    requires Radio.Temperature(temp)
    ensures EventOk(Hop2(), Tick(2, temp)) && Apply(Hop2(), Tick(2, temp)) == Hop3(temp)
  {
    assert Sent([Temp2(temp), Join2]) == {Temp2(temp), Join2};
  }
  lemma Hop4Step(temp: int)
    requires Radio.Temperature(temp)
    ensures EventOk(Hop3(temp), Hear(3, Join2, 50)) && Apply(Hop3(temp), Hear(3, Join2, 50)) == Hop4(temp)
  {
    assert Sent([]) == {};
  }
  lemma Hop5Step(temp: int)
    requires Radio.Temperature(temp)
    ensures EventOk(Hop4(temp), Tick(3, temp)) && Apply(Hop4(temp), Tick(3, temp)) == Hop5(temp)
  {
    assert Sent([Temp3(temp), Join3]) == {Temp3(temp), Join3};
  }
  lemma Hop6Step(temp: int)
    requires Radio.Temperature(temp)
    ensures EventOk(Hop5(temp), Hear(2, Temp3(temp), 50))
    ensures Apply(Hop5(temp), Hear(2, Temp3(temp), 50)) == Hop6(temp)
  {
    assert Sent([Relay3(temp)]) == {Relay3(temp)};
  }
}
