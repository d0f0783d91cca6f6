/** The outbound topic-alias table of the version 5 handler. */
module Aliases {
  import opened Mqtt

  const ALIAS_WRAP := 65536

  /** Aliases already given to topics, and the 16-bit counter the next one is taken from. */
  datatype Table = Table(given: map<Topic, nat>, next: nat)

  const NO_ALIASES := Table(map[], 1)

  /** A topic seen for the first time takes the counter, which then steps with wrap-around. */
  function Assign(t: Table, topic: Topic): Table {
    Table(t.given[topic := t.next], (t.next + 1) % ALIAS_WRAP)
  }

  /** Whether a publish of `topic`, for which the caller asked alias `asked`, adds to the table. */
  predicate Assigns(t: Table, topic: Topic, asked: Option<nat>) {
    topic !in t.given && asked.None?
  }

  /** The alias that goes into the packet: the table wins over the caller. */
  function Chosen(t: Table, topic: Topic, asked: Option<nat>): nat {
    if topic in t.given then t.given[topic]
    else if asked.Some? then asked.value
    else t.next
  }
}
