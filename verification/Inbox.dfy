/** The bounded queue of received messages: when full, the oldest message makes room. */
module Inbox {
  import opened Mqtt

  function Push(q: seq<Received>, capacity: nat, m: Received): seq<Received> {
    if |q| >= capacity && q != [] then q[1..] + [m] else q + [m]
  }
}
