/**
 * The radio link shared by the three simulator versions: the frame a node puts
 * on the medium (`Node.send`), the fixed-priority acceptance chain of
 * `Node.receive`, and the exact squared-distance arithmetic that stands in for
 * `math.sqrt`.
 */
module Radio {
  import opened Medium

  datatype Option<T> = None | Some(value: T)

  /** The check of `Node.receive` that dropped a frame. */
  datatype Reason = ChannelMismatch | Loopback | OutOfRange | Lost | WrongDestination

  /** What `Node.receive` returns: nothing, or the payload of the frame. */
  datatype Reception<P> = Rejected(reason: Reason) | Accepted(payload: P)

  /**
   * The tuple `(sender, channel, sender id, link destination, payload)` built by
   * `Node.send`; `from` is a snapshot of the sender instead of a live reference.
   */
  datatype Frame<O, P> = Frame(from: O, channel: int, lsrc: int, ldst: int, payload: P)

  /** A node's state after one step of one of its loops, and the frames it sent. */
  datatype Step<S, F> = Step(next: S, sent: seq<F>)

  /** Link destination 0 addresses every node. */
  const BROADCAST := 0

  /** Percentage threshold of the loss draw: the frame is lost when the draw is below it. */
  const RADIO_LOSSRATE := 10

  /** `randint(0, 100)`, both bounds inclusive. */
  predicate LossDraw(draw: int) {
    0 <= draw <= 100
  }

  /** `randint(27, 35)`, the reading of `temperature()`. */
  predicate Temperature(t: int) {
    27 <= t <= 35
  }

  /** The square of the Euclidean distance between two positions. */
  function SquaredDistance(x1: real, y1: real, x2: real, y2: real): (d2: real)
    ensures d2 >= 0.0
  {
    (x1 - x2) * (x1 - x2) + (y1 - y2) * (y1 - y2)
  }

  lemma PositiveProduct(a: real, b: real)
    requires a > 0.0 && b > 0.0
    ensures a * b > 0.0
  {
  }

  /**
   * Comparing a distance with a limit is the same as comparing their squares,
   * so `distance > limit` with `distance = sqrt(d2)` is `d2 > limit * limit`.
   */
  lemma DistanceAboveIffSquareAbove(d: real, limit: real)
    requires d >= 0.0 && limit >= 0.0
    ensures d > limit <==> d * d > limit * limit
  {
    if d > limit {
      PositiveProduct(d - limit, d + limit);
      assert (d - limit) * (d + limit) == d * d - limit * limit;
    } else if d < limit {
      PositiveProduct(limit - d, limit + d);
      assert (limit - d) * (limit + d) == limit * limit - d * d;
    }
  }

  /** Two positions further apart than `range`, compared on squares. */
  predicate OutOfReach(x1: real, y1: real, x2: real, y2: real, range: real) {
    SquaredDistance(x1, y1, x2, y2) > range * range
  }

  /** The squared test is the source's `distance > range` with `distance = sqrt(d2)`. */
  lemma OutOfReachIffBeyond(x1: real, y1: real, x2: real, y2: real, range: real, distance: real)
    requires range >= 0.0 && distance >= 0.0
    requires distance * distance == SquaredDistance(x1, y1, x2, y2)
    ensures OutOfReach(x1, y1, x2, y2, range) <==> distance > range
  {
    DistanceAboveIffSquareAbove(distance, range);
  }

  /** Link destination 0, or the receiver's own id. */
  predicate Addressed<O, P>(id: int, f: Frame<O, P>) {
    f.ldst == BROADCAST || f.ldst == id
  }

  /**
   * The first-match chain of `Node.receive` at node `id` listening on
   * `channel`: channel, loopback on the link sender, link quality (`reachable`,
   * the one check each version defines its own way), random loss, link
   * destination. The first failing check names the rejection; later checks
   * are not consulted.
   */
  function Filter<O, P>(id: int, channel: int, f: Frame<O, P>, reachable: bool, draw: int)
    : (r: Reception<P>)
    requires LossDraw(draw)
    ensures r == Rejected(ChannelMismatch) <==> f.channel != channel
    ensures r == Rejected(Loopback) <==> f.channel == channel && f.lsrc == id
    ensures r == Rejected(OutOfRange) <==> f.channel == channel && f.lsrc != id && !reachable
    ensures r == Rejected(Lost) <==>
              f.channel == channel && f.lsrc != id && reachable && draw < RADIO_LOSSRATE
    ensures r == Rejected(WrongDestination) <==>
              f.channel == channel && f.lsrc != id && reachable && draw >= RADIO_LOSSRATE
              && !Addressed(id, f)
    ensures r.Accepted? <==>
              f.channel == channel && f.lsrc != id && reachable && draw >= RADIO_LOSSRATE
              && Addressed(id, f)
    ensures r.Accepted? ==> r.payload == f.payload
  {
    if f.channel != channel then Rejected(ChannelMismatch)
    else if f.lsrc == id then Rejected(Loopback)
    else if !reachable then Rejected(OutOfRange)
    else if draw < RADIO_LOSSRATE then Rejected(Lost)
    else if Addressed(id, f) then Accepted(f.payload)
    else Rejected(WrongDestination)
  }

  /** A frame sent by the node `at`, whose id is `id`, while it was on `channel`. */
  predicate SentFrom<O(==), P>(f: Frame<O, P>, at: O, id: int, channel: int) {
    f.from == at && f.lsrc == id && f.channel == channel
  }

  /**
   * `Node.send`: build the frame on the sender's current channel and put it on
   * the medium. The send fails only when no pipe is registered.
   */
  method Send<O, P>(media: Media<Frame<O, P>>, from: O, channel: int, lsrc: int, ldst: int,
                    payload: P) returns (f: Frame<O, P>, status: Status)
    modifies media
    ensures f == Frame(from, channel, lsrc, ldst, payload)
    ensures status == NoOutputPipes <==> old(media.pipes) == []
    ensures media.pipes == Broadcast(old(media.pipes), f)
  {
    f := Frame(from, channel, lsrc, ldst, payload);
    status := media.Put(f);
  }
}
