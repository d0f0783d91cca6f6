/** The stateful part of the version 5 handler: it owns the topic-alias table. */
module Handlers {
  import opened Mqtt
  import Aliases

  class V5Handler {
    var topicAliases: map<Topic, nat>
    var nextTopicAlias: nat

    ghost function Value(): Aliases.Table
      reads this
    {
      Aliases.Table(topicAliases, nextTopicAlias)
    }

    constructor ()
      ensures Value() == Aliases.NO_ALIASES
    {
      topicAliases, nextTopicAlias := map[], 1;
    }

    /** Builds a PUBLISH with properties. The id is checked first, so a refused packet leaves the
        table alone; otherwise a topic seen for the first time may take the next alias. */
    method CreatePublishWithConfig(topic: Topic, qos: QoS, retain: bool, payload: Bytes,
                                   pid: Option<Pid>, dup: bool, asked: Option<nat>)
      returns (r: Result<Packet>)
      modifies this
      ensures var plain := CreatePublish(topic, qos, retain, payload, pid, dup);
              if plain.Err? then r == plain && Value() == old(Value())
              else
                && r == Ok(plain.value.(alias := Some(Aliases.Chosen(old(Value()), topic, asked))))
                && Value() == if Aliases.Assigns(old(Value()), topic, asked) then Aliases.Assign(old(Value()), topic)
                              else old(Value())
    {
      var plain := CreatePublish(topic, qos, retain, payload, pid, dup);
      if plain.Err? {
        return plain;
      }
      var alias := asked;
      if topic in topicAliases {
        alias := Some(topicAliases[topic]);
      } else if alias.None? {
        alias := Some(nextTopicAlias);
        topicAliases := topicAliases[topic := nextTopicAlias];
        nextTopicAlias := (nextTopicAlias + 1) % Aliases.ALIAS_WRAP;
      }
      r := Ok(plain.value.(alias := alias));
    }
  }
}
