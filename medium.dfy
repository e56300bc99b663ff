/**
 * The wireless medium shared by every node: a fan-out channel that keeps one
 * inbound pipe per registered node and copies every message it is given into
 * each of them. The three simulator versions carry the same `Media` class, so
 * it is modelled once, generic in the message type.
 */
module Medium {

  /** Outcome of `Put`: the source raises a RuntimeError when no pipe is registered. */
  datatype Status = Delivered | NoOutputPipes

  /** Every pipe with `v` appended at its end, in pipe order. */
  function Broadcast<M>(pipes: seq<seq<M>>, v: M): (r: seq<seq<M>>)
    ensures |r| == |pipes|
    ensures forall i :: 0 <= i < |pipes| ==> r[i] == pipes[i] + [v]
  {
    if pipes == [] then [] else [pipes[0] + [v]] + Broadcast(pipes[1..], v)
  }

  /** The pipes after the messages `vs` have been put one after the other. */
  function BroadcastAll<M>(pipes: seq<seq<M>>, vs: seq<M>): (r: seq<seq<M>>)
    ensures |r| == |pipes|
    ensures forall i :: 0 <= i < |pipes| ==> r[i] == pipes[i] + vs
    decreases |vs|
  {
    if vs == [] then pipes
    else
      var r := BroadcastAll(Broadcast(pipes, vs[0]), vs[1..]);
      assert forall i :: 0 <= i < |pipes| ==> r[i] == pipes[i] + [vs[0]] + vs[1..];
      assert forall i :: 0 <= i < |pipes| ==> pipes[i] + [vs[0]] + vs[1..] == pipes[i] + vs;
      r
  }

  /** The fan-out channel; `pipes[k]` is the queue of the k-th registered node. */
  class Media<M> {
    var pipes: seq<seq<M>>

    constructor ()
      ensures pipes == []
    {
      pipes := [];
    }

    /**
     * Copy `v` to the end of every registered pipe. With no pipe registered
     * nothing changes and the error is reported.
     */
    method Put(v: M) returns (status: Status)
      modifies this
      ensures status == NoOutputPipes <==> old(pipes) == []
      ensures pipes == Broadcast(old(pipes), v)
    {
      if pipes == [] {
        return NoOutputPipes;
      }
      var i := 0;
      while i < |pipes|
        invariant 0 <= i <= |pipes| == |old(pipes)|
        invariant forall k :: 0 <= k < i ==> pipes[k] == old(pipes)[k] + [v]
        invariant forall k :: i <= k < |pipes| ==> pipes[k] == old(pipes)[k]
      {
        pipes := pipes[i := pipes[i] + [v]];
        i := i + 1;
      }
      status := Delivered;
    }

    /** Register a new, empty pipe and return its index. */
    method GetOutputConn() returns (k: nat)
      modifies this
      ensures pipes == old(pipes) + [[]]
      ensures k == |old(pipes)| && k < |pipes| && pipes[k] == []
    {
      k := |pipes|;
      pipes := pipes + [[]];
    }
  }
}
