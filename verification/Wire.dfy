/** The write queue and the transport below it. A transport accepts any number of the bytes it
    is offered, or fails; the engine keeps writing until the packet is out. */
module Wire {
  import opened Mqtt

  /** What the world answers. Every function is indexed by the number of events the client
      has logged so far, so that any sequence of answers is possible:
      - clock: the reading of the time provider;
      - read: the next decoded packet, or None for a read error;
      - write(k, j): how many bytes the j-th write of send k accepts, or None for an error;
      - flush, close: whether these transport calls succeed;
      - alive: what the transport says about its connection;
      - order: which keys a hash-table iteration prefers to yield first. */
  datatype World = World(
    clock: nat -> Millis,
    read: nat -> Option<Packet>,
    write: (nat, nat) -> Option<nat>,
    flush: nat -> bool,
    close: nat -> bool,
    alive: nat -> bool,
    order: nat -> seq<Pid>)

  /** done bytes were accepted using the first `calls` write calls; ok when that is all of them. */
  datatype Written = Written(done: nat, calls: nat, ok: bool)

  /** Writing `size` bytes, `done` of which are already out, starting at write call j of send k.
      Ends at the first error or at a write that accepts nothing. */
  function WriteAll(w: World, k: nat, j: nat, size: nat, done: nat): (r: Written)
    requires done <= size
    ensures done <= r.done <= size
    ensures r.ok <==> r.done == size
    decreases size - done
  {
    if done == size then Written(done, j, true)
    else
      match w.write(k, j)
      case None => Written(done, j + 1, false)
      case Some(n) =>
        var m := Min(n, size - done);
        if m == 0 then Written(done, j + 1, false)
        else WriteAll(w, k, j + 1, size, done + m)
  }

  datatype Flushed = Flushed(wire: Bytes, rest: seq<Bytes>, ok: bool)

  /** Flushing a queue of encoded packets: the bytes that reach the wire, what is left in the
      queue, and whether the flush as a whole succeeded. */
  function FlushQueue(w: World, k: nat, j: nat, queue: seq<Bytes>): Flushed
    decreases |queue|
  {
    if queue == [] then Flushed([], [], w.flush(k))
    else
      var r := WriteAll(w, k, j, |queue[0]|, 0);
      if !r.ok then Flushed(queue[0][..r.done], queue[1..], false)
      else
        var f := FlushQueue(w, k, r.calls, queue[1..]);
        Flushed(queue[0] + f.wire, f.rest, f.ok)
  }

  lemma FlushSteps(w: World, k: nat, j: nat, queue: seq<Bytes>)
    ensures queue == [] ==> FlushQueue(w, k, j, queue) == Flushed([], [], w.flush(k))
    ensures queue != [] ==>
              var r := WriteAll(w, k, j, |queue[0]|, 0);
              var g := FlushQueue(w, k, r.calls, queue[1..]);
              FlushQueue(w, k, j, queue)
              == if r.ok then Flushed(queue[0] + g.wire, g.rest, g.ok) else Flushed(queue[0][..r.done], queue[1..], false)
  {
  }

  function Concat(parts: seq<Bytes>): Bytes {
    if parts == [] then [] else parts[0] + Concat(parts[1..])
  }

  /** The flush broke off inside packet i, n bytes of which got out. */
  predicate BrokeOff(queue: seq<Bytes>, f: Flushed, i: nat, n: nat) {
    && i < |queue|
    && n < |queue[i]|
    && f.wire == Concat(queue[..i]) + queue[i][..n]
    && f.rest == queue[i + 1..]
  }

  lemma BrokeOffLater(queue: seq<Bytes>, f: Flushed, g: Flushed, i: nat, n: nat)
    requires queue != [] && BrokeOff(queue[1..], g, i, n)
    requires f.wire == queue[0] + g.wire && f.rest == g.rest
    ensures BrokeOff(queue, f, i + 1, n)
  {
    assert queue[..i + 1][1..] == queue[1..][..i];
    assert Concat(queue[..i + 1]) == queue[0] + Concat(queue[1..][..i]);
    assert queue[1..][i + 1..] == queue[i + 2..];
  }

  /** Short writes lose, repeat and reorder nothing. A successful flush puts exactly the
      concatenation of the queue on the wire. A failing one breaks off inside some packet: whole
      packets and then a proper prefix of that packet are on the wire, that packet is dropped and
      those behind it stay queued; or it wrote everything and the final transport flush failed. */
  lemma {:induction false} FlushRefinesConcat(w: World, k: nat, j: nat, queue: seq<Bytes>)
    ensures var f := FlushQueue(w, k, j, queue);
            || (f.wire == Concat(queue) && f.rest == [] && (f.ok <==> w.flush(k)))
            || (!f.ok && exists i, n :: BrokeOff(queue, f, i, n))
    decreases |queue|
  {
    if queue != [] {
      var f := FlushQueue(w, k, j, queue);
      var r := WriteAll(w, k, j, |queue[0]|, 0);
      if r.ok {
        var g := FlushQueue(w, k, r.calls, queue[1..]);
        FlushRefinesConcat(w, k, r.calls, queue[1..]);
        if i, n :| BrokeOff(queue[1..], g, i, n) {
          BrokeOffLater(queue, f, g, i, n);
        }
      } else {
        assert queue[..0] == [];
        assert BrokeOff(queue, f, 0, r.done);
      }
    }
  }

  /** A queue of one packet is empty after the flush, whether it succeeded or not, and the wire
      grew by a prefix of that packet: by all of it when the flush succeeded. */
  lemma SinglePacket(w: World, k: nat, b: Bytes)
    ensures var f := FlushQueue(w, k, 0, [b]);
            f.rest == [] && f.wire <= b && (f.ok ==> f.wire == b)
  {
  }
}
