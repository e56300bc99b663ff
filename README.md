# Wireless sensor network simulator: a Dafny model

This project models the core of a small wireless-sensor-network simulator that
comes in three versions:

- pract3 builds a rank-based routing tree. A sink advertises rank 1. A sensor
  joins the first node it hears, re-parents only on a strictly better rank, and
  relays TEMP readings hop by hop to the sink.
- pract2 gives every sink its own channel (its id). The sink advertises that
  channel on channel 7, and a sensor moves to the channel of the first sink it
  hears.
- pract1 decides each link by received power. Every sink announces a random
  channel once, and a sensor follows the first announcement it hears.

All three versions share two pieces:

- the broadcast medium `Media`, one inbound pipe per node;
- the first-match acceptance filter of `Node.receive`. Its checks run in this
  order: channel, link-level loopback, range (or received power), random loss,
  link destination.

Modules:

- `Medium` (medium.dfy) has the `Media` class over `seq<seq<M>>`. `Broadcast`
  and `BroadcastAll` give the pipes after one or several `put` calls.
- `Radio` (radio.dfy) has the frame `(sender, channel, LSRC, LDST, payload)`
  built by `Node.send`, the first-match `Filter`, and the squared-distance
  arithmetic that replaces `math.sqrt`.
- `RankRouting` (rank_routing.dfy) is pract3. It has the pure step functions
  `Receive`, `SinkTimer`, `SinkReceive`, `SensorTimer` and `SensorReceive`, and
  the classes `Sink` and `Sensor`. Their `OnTimer` and `OnReceive` methods
  update the node's fields, return the frames they sent, and are proved equal
  to the step functions.
- `RankRoutingTree` (rank_routing_tree.dfy) runs the pract3 nodes together
  under any interleaving of timer and receive iterations. It proves:
  - the parent links always form a tree rooted at sinks;
  - an isolated sensor never joins;
  - the concrete two-hop report of the main program's placement.
- `ChannelAdvert` (channel_advert.dfy) is pract2, built the same way.
- `PowerJoin` (power_join.dfy) is pract1, built the same way.

Conventions:

- A message is a datatype holding a snapshot of the sender (id, position, and
  transmission power in pract1) and a payload `Join(...) | Temp(...)` in place
  of the JSON text.
- Every `randint` draw is a parameter with its inclusive bounds as a
  precondition:
  - loss draw 0..100 (`LossDraw`);
  - reading 27..35 (`Temperature`);
  - pract1 channel 1..6 (`ChannelDraw`).
- A node's pipe is registered by its constructor (`GetOutputConn`). `inbox` is
  the index of that pipe.

Notes on what the code does, which the model follows:

- The loopback test compares the link-level sender id (`msg[2]`, `lsrc`), not
  the message's SRC.
- The loss draw is `randint(0, 100)` with both bounds included: 101 outcomes,
  10 of which drop the frame.
- In pract3 the sink's rank is 1, so sensors one hop away get rank 2.
- A joined sensor's rank is not always its parent's rank plus one. The parent
  may later re-parent to a better rank, and the child keeps its old rank until
  it next hears its parent's advert (pract3/microbit_sim_p3_Solution.py:183-196
  and 217-221). What the code keeps at every moment, and what
  `RankRoutingTree.RunKeepsTree` proves, is that the rank is strictly above
  the parent's.
- Every sending method asserts that `put` finds at least one pipe: the node's
  own pipe is registered by its constructor, which `Valid()` records.

## Model

| member | source | states |
|---|---|---|
| Medium.Broadcast | pract3/microbit_sim_p3_Solution.py:31 | every pipe gets the value appended at its end; the pipe count is unchanged |
| Medium.BroadcastAll | pract3/microbit_sim_p3_Solution.py:28-32 | putting several values one after the other appends all of them, in order, to every pipe |
| Medium.Media.constructor | pract3/microbit_sim_p3_Solution.py:23-26 | a new medium has no pipes |
| Medium.Media.Put | pract3/microbit_sim_p3_Solution.py:28-32 | with no pipes, the error is reported and nothing changes; otherwise the value is appended to every pipe, earlier contents and pipe count kept (the same code is at pract2/microbit_sim_p1.py:23-27 and pract1/microbit_sim_power.py:22-26) |
| Medium.Media.GetOutputConn | pract3/microbit_sim_p3_Solution.py:34-37 | exactly one new empty pipe is appended and its index returned; earlier pipes are untouched (also pract2/microbit_sim_p1.py:29-32, pract1/microbit_sim_power.py:28-31) |
| Radio.SquaredDistance | pract3/microbit_sim_p3_Solution.py:66 | the squared distance `dx² + dy²` is never negative |
| Radio.DistanceAboveIffSquareAbove | pract3/microbit_sim_p3_Solution.py:75 | for non-negative values, `distance > limit` holds exactly when `distance² > limit²`, so the sqrt comparison can be made on squares |
| Radio.OutOfReachIffBeyond | pract3/microbit_sim_p3_Solution.py:75 | the squared-distance test used by every version is the source's `distance > RADIO_TXDISTANCE` on the real distance |
| Radio.Filter | pract3/microbit_sim_p3_Solution.py:67-90 | first-match chain: each rejection reason holds exactly when its check is the first to fail; acceptance, exactly when all pass, returns the payload unchanged |
| Radio.Send | pract3/microbit_sim_p3_Solution.py:59-63 | the frame carries the sender, its current channel, its id as LSRC and the given LDST; it is put on the medium (error iff no pipe) |
| RankRouting.Receive | pract3/microbit_sim_p3_Solution.py:65-90 | the chain is that of Radio.Filter; the range check rejects exactly when the sender is farther than 1.5 (squared distance > 2.25) |
| RankRouting.SinkTimer | pract3/microbit_sim_p3_Solution.py:121-137 | one step raises sqnr by one and sends exactly one frame: from the sink, LSRC = own id, on its channel, broadcast, JOIN(SRC id, DST = LDST = 0, RNK = rank, SEQ = new sqnr) |
| RankRouting.SinkReceive | pract3/microbit_sim_p3_Solution.py:140-150 | publishes exactly for an accepted TEMP, and then the report is (SRC, DATA) |
| RankRouting.Adopt | pract3/microbit_sim_p3_Solution.py:208-221 | unjoined: parent := SRC, rank := RNK + 1; joined: re-parent iff RNK + 1 < rank, else unchanged; a joined sensor's rank never rises; channel and sqnr untouched |
| RankRouting.Relayed | pract3/microbit_sim_p3_Solution.py:226-228 | the relayed TEMP differs from the received one only in LSRC := own id and LDST := parent |
| RankRouting.SensorTimer | pract3/microbit_sim_p3_Solution.py:162-196 | unjoined: nothing changes and nothing is sent; joined: sqnr rises by 2, first TEMP(SRC id, DST 1, LDST parent, SEQ sqnr + 1, reading) to the parent, then broadcast JOIN(RNK rank, SEQ sqnr + 2), both from the sensor on its channel with matching link fields |
| RankRouting.SensorReceive | pract3/microbit_sim_p3_Solution.py:200-232 | a rejected frame changes nothing and sends nothing; channel and sqnr never change; at most one frame is sent, exactly when an accepted TEMP reaches a joined sensor, and it goes from the sensor to its parent |
| RankRouting.SensorJoinRule | pract3/microbit_sim_p3_Solution.py:208-221 | an accepted JOIN sends nothing; unjoined joins the sender at RNK + 1; joined changes state iff RNK + 1 < rank and then only parent and rank |
| RankRouting.SensorRelaysTemp | pract3/microbit_sim_p3_Solution.py:222-232 | an accepted TEMP leaves the state as is; unjoined drops it; joined re-sends it once to its parent with LSRC := own id, LDST := parent, SRC, DST, SEQ and DATA kept |
| RankRouting.JoinedRankNeverIncreases | pract3/microbit_sim_p3_Solution.py:214-221 | over any sequence of deliveries a joined sensor stays joined and its rank never rises |
| RankRouting.Sink.constructor | pract3/microbit_sim_p3_Solution.py:105-110 | a sink starts on channel 99 with sqnr 0 and rank 1, with one new pipe registered |
| RankRouting.Sink.OnTimer | pract3/microbit_sim_p3_Solution.py:121-137 | the new fields and the sent frames are those of SinkTimer; every pipe gets the sent frames |
| RankRouting.Sink.OnReceive | pract3/microbit_sim_p3_Solution.py:140-150 | changes no field and returns the report of SinkReceive |
| RankRouting.Sensor.constructor | pract3/microbit_sim_p3_Solution.py:157-160 | a sensor starts on channel 99 with sqnr 0, rank 0 and no parent, with one new pipe registered |
| RankRouting.Sensor.OnTimer | pract3/microbit_sim_p3_Solution.py:162-196 | the new fields and the two sent frames are those of SensorTimer; every pipe gets them in order |
| RankRouting.Sensor.OnReceive | pract3/microbit_sim_p3_Solution.py:200-232 | the new fields and the relayed frame are those of SensorReceive; every pipe gets the sent frames |
| RankRoutingTree.Apply | pract3/microbit_sim_p3_Solution.py:121-232 | one timer or receive iteration of one node changes only that node, keeps every node's place and kind, and only adds frames to the air |
| RankRoutingTree.Run | pract3/microbit_sim_p3_Solution.py:121-232 | any interleaving of iterations keeps the set of nodes, their places and kinds, and only adds frames to the air |
| RankRoutingTree.InitialIsTree | pract3/microbit_sim_p3_Solution.py:105-110 | freshly constructed nodes satisfy the tree invariant |
| RankRoutingTree.SinkTickKeepsTree | pract3/microbit_sim_p3_Solution.py:121-137 | a sink advert keeps the tree invariant |
| RankRoutingTree.SensorTickKeepsTree | pract3/microbit_sim_p3_Solution.py:162-196 | a sensor's report and advert keep the tree invariant |
| RankRoutingTree.SensorHearKeepsTree | pract3/microbit_sim_p3_Solution.py:200-232 | joining, re-parenting and relaying keep the tree invariant |
| RankRoutingTree.ApplyKeepsTree | pract3/microbit_sim_p3_Solution.py:121-232 | any single timer or receive iteration of any node keeps the tree invariant |
| RankRoutingTree.RunKeepsTree | pract3/microbit_sim_p3_Solution.py:208-221 | under every interleaving, every joined sensor's parent is a sink or a joined sensor of strictly lower rank, and every JOIN in the air has RNK at least its sender's current rank |
| RankRoutingTree.AncestorClimbs | pract3/microbit_sim_p3_Solution.py:212-221 | each parent hop lowers the rank by at least one until a sink is reached |
| RankRoutingTree.ParentChainReachesSink | pract3/microbit_sim_p3_Solution.py:212-221 | following parents from a sink or joined sensor reaches a sink within rank − 1 hops |
| RankRoutingTree.NoRoutingLoop | pract3/microbit_sim_p3_Solution.py:212-221 | no parent chain returns to the sensor it started from |
| RankRoutingTree.EveryJoinedSensorReachesSink | pract3/microbit_sim_p3_Solution.py:121-232 | from constructed nodes, after any interleaving, every joined sensor has rank at least 1 and its parent chain ends at a sink |
| RankRoutingTree.StrandedStep | pract3/microbit_sim_p3_Solution.py:75-78 | one step keeps an isolated unjoined sensor unjoined, silent and unchanged |
| RankRoutingTree.StrandedRun | pract3/microbit_sim_p3_Solution.py:75-78 | the same over any sequence of steps |
| RankRoutingTree.IsolatedSensorNeverJoins | pract3/microbit_sim_p3_Solution.py:165-166 | a sensor beyond everybody's range stays as constructed, never joins and never sends |
| RankRoutingTree.SetupIsInitial | pract3/microbit_sim_p3_Solution.py:250-256 | the main program's placement is a valid initial network |
| RankRoutingTree.OnlyTwoAndFiveHearTheSink | pract3/microbit_sim_p3_Solution.py:250-256 | with range 1.5 only sensors 2 and 5 are within range of sink 1 |
| RankRoutingTree.TwoHopReport | pract3/microbit_sim_p3_Solution.py:162-232 | sensor 2 joins at rank 2, sensor 3 joins through 2 at rank 3, 3's reading is relayed by 2 with LSRC 2, and the sink, in its state at that point, publishes it under SRC 3 |
| ChannelAdvert.Receive | pract2/microbit_sim_p1.py:54-79 | the chain is that of Radio.Filter; the range check rejects exactly when the sender is farther than 2 (squared distance > 4) |
| ChannelAdvert.SinkTimer | pract2/microbit_sim_p1.py:89-109 | one step sends exactly one broadcast JOIN on channel 7 with CHANNEL = id and SEQ = sqnr + 1, from the sink with LSRC = id, and ends with the sink on channel id and sqnr + 1 |
| ChannelAdvert.SinkReceive | pract2/microbit_sim_p1.py:112-120 | reports exactly for an accepted TEMP, and then the report is (SRC, DATA) |
| ChannelAdvert.SensorTimer | pract2/microbit_sim_p1.py:135-153 | unjoined: nothing changes and nothing is sent; joined: sqnr rises by one and one TEMP(DST = LDST = join node, SEQ sqnr + 1, reading) is sent from the sensor on its channel |
| ChannelAdvert.SensorReceive | pract2/microbit_sim_p1.py:155-169 | sqnr never changes, and a joined sensor is left exactly as it was |
| ChannelAdvert.SensorAdoptsFirstSink | pract2/microbit_sim_p1.py:155-169 | the first accepted JOIN sets join node := SRC and channel := CHANNEL; any other reception, and any JOIN once joined, changes nothing |
| ChannelAdvert.JoinedSensorIgnoresOtherChannels | pract2/microbit_sim_p1.py:56-59 | a frame on any channel other than the sensor's is rejected for channel mismatch and changes nothing, adverts on 7 included |
| ChannelAdvert.AdvertLeadsToSinkChannel | pract2/microbit_sim_p1.py:103-109 | a starting sensor taking a sink's advert ends on the sink's own channel, which the sink is back on, and its next TEMP goes there addressed to the sink |
| ChannelAdvert.JoinedSensorIsSettled | pract2/microbit_sim_p1.py:163-169 | once joined, no sequence of receptions changes the sensor |
| ChannelAdvert.EachSensorHearsOneSink | pract2/microbit_sim_p1.py:185-190 | in the main placement sensors 2 and 4 are in range of sink 1 only, sensors 3 and 5 of sink 6 only |
| ChannelAdvert.PlacedSensorsSettle | pract2/microbit_sim_p1.py:185-190 | sensors 2 and 4 settle on channel 1 with sink 1, sensors 3 and 5 on channel 6 with sink 6 |
| ChannelAdvert.Sink.constructor | pract2/microbit_sim_p1.py:84-87 | a sink starts on the channel named by its id, sqnr 0, with one new pipe registered |
| ChannelAdvert.Sink.OnTimer | pract2/microbit_sim_p1.py:89-109 | fields and sent frame are those of SinkTimer; the sink ends on channel id; every pipe gets the advert |
| ChannelAdvert.Sink.OnReceive | pract2/microbit_sim_p1.py:112-120 | changes no field and returns the report of SinkReceive |
| ChannelAdvert.Sensor.constructor | pract2/microbit_sim_p1.py:124-127 | a sensor starts on channel 7, sqnr 0, not joined |
| ChannelAdvert.Sensor.OnTimer | pract2/microbit_sim_p1.py:135-153 | fields and sent frame are those of SensorTimer; every pipe gets it |
| ChannelAdvert.Sensor.OnReceive | pract2/microbit_sim_p1.py:155-169 | the new fields are those of SensorReceive; nothing is sent |
| PowerJoin.TooWeakIffPowerBelowDistance | pract1/microbit_sim_power.py:63-67 | away from the sender the received power `tx / d²` is below 2 exactly when `tx < 2·d²` |
| PowerJoin.PowerEightReachesDistanceTwo | pract1/microbit_sim_power.py:190-195 | with power 8 a frame is too weak exactly beyond squared distance 4, distance 0 included |
| PowerJoin.ReceivedPower | pract1/microbit_sim_power.py:63-67 | at distance 0 the received power is the transmit power; otherwise received power times squared distance is the transmit power |
| PowerJoin.Receive | pract1/microbit_sim_power.py:62-92 | the chain is that of Radio.Filter; the link check rejects exactly when the received power is below 2 |
| PowerJoin.SinkTimer | pract1/microbit_sim_power.py:101-120 | once announced nothing changes and nothing is sent; otherwise exactly one broadcast JOIN(DATA = drawn channel, SEQ sqnr + 1) from the sink on its channel, and the sink moves to the drawn channel, announced |
| PowerJoin.SinkReceive | pract1/microbit_sim_power.py:123-128 | logs exactly the accepted payloads, unchanged |
| PowerJoin.SinkSteps | pract1/microbit_sim_power.py:101-120 | over a run of timer steps the sink sends one frame if it was not yet announced and at least one step ran, none otherwise, and ends announced exactly then |
| PowerJoin.AnnouncedSinkIsSilent | pract1/microbit_sim_power.py:118-120 | after the announcement no number of steps sends anything or changes the sink |
| PowerJoin.SinkAnnouncesOnce | pract1/microbit_sim_power.py:101-120 | from the start a sink sends exactly one frame over any run: broadcast JOIN(DATA = drawn channel, SEQ 1) on channel 7; it ends on the drawn channel |
| PowerJoin.SensorTimer | pract1/microbit_sim_power.py:137-153 | not ready: nothing changes and nothing is sent; ready: sqnr rises by one and one TEMP(DST = dst, LDST = ldst, SEQ sqnr + 1, reading) goes to link destination ldst on its channel |
| PowerJoin.SensorReceive | pract1/microbit_sim_power.py:155-174 | sqnr never changes, a ready sensor is left as it was, and any change leaves the sensor ready |
| PowerJoin.SensorTakesJoin | pract1/microbit_sim_power.py:155-174 | a not-ready sensor accepting a JOIN sets channel := DATA, dst := SRC, ldst := LSRC, ready; every other reception changes nothing |
| PowerJoin.ReadySensorIsSettled | pract1/microbit_sim_power.py:172-174 | once ready, no sequence of receptions changes the sensor |
| PowerJoin.AnnouncementLeadsToReports | pract1/microbit_sim_power.py:101-168 | when sensor and sink transmit at the same power (8 in the main program) and have different ids, a starting sensor taking a sink's announcement reports on the announced channel to the sink, and the sink, now on it, accepts the reading unless it is lost |
| PowerJoin.EachSensorHearsOneSink | pract1/microbit_sim_power.py:190-195 | in the main placement sensors 2 and 4 receive only sink 1 strongly enough, sensors 3 and 5 only sink 6 |
| PowerJoin.Sink.constructor | pract1/microbit_sim_power.py:35-48 | a sink starts on channel 7, sqnr 0, not yet announced |
| PowerJoin.Sink.OnTimer | pract1/microbit_sim_power.py:101-120 | fields and sent frames are those of SinkTimer; every pipe gets the announcement |
| PowerJoin.Sink.OnReceive | pract1/microbit_sim_power.py:123-128 | changes no field and returns what SinkReceive logs |
| PowerJoin.Sensor.constructor | pract1/microbit_sim_power.py:132-135 | a sensor starts with channel 7, sqnr = dst = ldst = 0 and not ready |
| PowerJoin.Sensor.OnTimer | pract1/microbit_sim_power.py:137-153 | fields and sent frame are those of SensorTimer; every pipe gets it |
| PowerJoin.Sensor.OnReceive | pract1/microbit_sim_power.py:155-174 | the new fields are those of SensorReceive; nothing is sent |

## Left out

- The simpy scheduler (`Environment`, `env.process`, `timeout`, `Store.get`, `all_of`) is left out. One iteration of a node's loop is one step method. In the pract3 network model, any interleaving of such steps is allowed.
- The timer intervals, `randint(300, 500)` and `randint(500, 1000)`, are left out, because they only feed `env.timeout`.
- The per-node pipes of the network model are over-approximated by `ether`, the set of every frame sent so far. Any frame may be delivered to any node, in any order, any number of times. The FIFO order of a single pipe is not used.
- The MQTT client of the pract3 sink (connect, subscribe, `on_message`) is network I/O. `publish` is modelled as the returned `Report(SRC, DATA)`.
- `json.dumps` and `json.loads` are replaced by the payload datatype. The JSON text and `str(DATA)` on relay are not modelled: DATA is kept unchanged.
- `RankRouting.SensorRelaysTemp`: does not model that the relayed DATA becomes a string; the reading is kept as the same number.
- The `KeyError` handling of the pract1 sensor (pract1/microbit_sim_power.py:162-171) is not modelled. Every modelled JOIN carries all its fields, so the partial update on a missing key cannot arise.
- `math.sqrt` and float arithmetic, including rounding, are left out. Distances are compared on exact real squares, and received power is exact real division.
- `print` and the DEBUG flags are left out, as are `seed(datetime.now())` and `env.run`. The placements of the main programs appear only as scenario constants.
- The statistical loss rate is left out. The loss draw is a parameter, and nothing is claimed about its distribution.
- The pract3 `Sink.switch` field is left out, because it is set and never read. The pract1 sink's own `dst` and `ldst` fields are left out for the same reason.
- The sink's `yield env.timeout(100)` loop after the pract1 announcement is modelled as a step that does nothing. The `announced` flag stands for the position of the generator, not for a field of the source.
- The `temperature()` helper is the parameter `temp` with `Temperature(temp)`.
- pract2/grafica.py only plots a probability formula and is not part of this model.
