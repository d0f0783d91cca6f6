/** The topic-alias table over whole runs (MQTT 5.0 section 3.3.2.3.4). */
module AliasRuns {
  import opened Mqtt
  import opened Machine
  import opened Aliases

  /** The topics that were given an alias, in order. */
  function Named(log: seq<Event>): seq<Topic>
    decreases |log|
  {
    if log == [] then []
    else Named(log[..|log| - 1]) + if log[|log| - 1].AliasAssigned? then [log[|log| - 1].topic] else []
  }

  /** The k-th named topic has alias (k + 1) mod 65536, no topic is named twice, and the table holds
      nothing else. */
  ghost predicate Orderly(t: Table, named: seq<Topic>) {
    && (forall i, j :: 0 <= i < j < |named| ==> named[i] != named[j])
    && (forall topic :: topic in t.given <==> topic in named)
    && (forall k :: 0 <= k < |named| ==> named[k] in t.given && t.given[named[k]] == (k + 1) % ALIAS_WRAP)
    && t.next == (|named| + 1) % ALIAS_WRAP
  }

  lemma AssignKeepsOrder(t: Table, named: seq<Topic>, topic: Topic)
    requires Orderly(t, named) && topic !in t.given
    ensures Orderly(Assign(t, topic), named + [topic])
  {
  }

  lemma {:induction false} TableIsOrderly(s: State)
    requires Sound(s)
    ensures Orderly(s.core.aliases, Named(s.core.log))
    decreases |s.core.log|
  {
    hide At, AfterSend, AfterArrival, MaySend, Orderly;
    if s.core.log == [] {
      StartsOrderly(s);
    } else {
      BeforeIsSound(s);
      TableIsOrderly(Before(s));
      if Last(s).AliasAssigned? {
        AssignKeepsOrder(Before(s).core.aliases, Named(Before(s).core.log), Last(s).topic);
      } else {
        OthersKeepAliases(Before(s).core, Last(s));
        assert Named(s.core.log) == Named(Before(s).core.log);
      }
    }
  }

  lemma OthersKeepAliases(c: Core, e: Event)
    requires !e.AliasAssigned?
    ensures Post(c, e).aliases == c.aliases
  {
  }

  lemma StartsOrderly(s: State)
    requires Sound(s) && s.core.log == []
    ensures Orderly(s.core.aliases, [])
  {
    AtIsSound(s, 0);
  }

  /** An alias that a receiver can use: non-zero, and not shared with another topic. */
  predicate Usable(t: Table) {
    && (forall topic :: topic in t.given ==> 1 <= t.given[topic] <= 65535)
    && (forall x, y :: x in t.given && y in t.given && x != y ==> t.given[x] != t.given[y])
  }

  /** The aliases are usable if and only if at most 65535 topics have been given one; the topic after
      that gets alias 0. Up to there the table is a bijection between the topics named and
      1..n, n being their number. */
  lemma UsableIffFewTopics(s: State)
    requires Sound(s)
    ensures var t, n := s.core.aliases, |Named(s.core.log)|;
            && (Usable(t) <==> n <= 65535)
            && (n <= 65535 ==> forall k :: 1 <= k <= n ==> k in t.given.Values)
            && (n <= 65535 ==> forall topic :: topic in t.given ==> 1 <= t.given[topic] <= n)
  {
    hide Sound;
    TableIsOrderly(s);
    OrderlyIsUsable(s.core.aliases, Named(s.core.log));
  }

  lemma OrderlyIsUsable(t: Table, named: seq<Topic>)
    requires Orderly(t, named)
    ensures Usable(t) <==> |named| <= 65535
    ensures |named| <= 65535 ==> forall k :: 1 <= k <= |named| ==> k in t.given.Values
    ensures |named| <= 65535 ==> forall topic :: topic in t.given ==> 1 <= t.given[topic] <= |named|
  {
    if |named| <= 65535 {
      forall topic | topic in t.given ensures exists k :: 0 <= k < |named| && named[k] == topic && t.given[topic] == k + 1 {
        var k :| 0 <= k < |named| && named[k] == topic;
        assert t.given[named[k]] == (k + 1) % ALIAS_WRAP == k + 1;
      }
      forall k | 1 <= k <= |named| ensures k in t.given.Values {
        assert t.given[named[k - 1]] == k;
      }
    } else {
      assert t.given[named[65535]] == 0;
    }
  }

  /** Once a topic has an alias it keeps it, and every later PUBLISH of that topic that carries an
      alias carries that one, whatever alias its caller asked for. */
  lemma {:induction false} AliasesNeverChange(s: State, n: nat, topic: Topic)
    requires Sound(s) && n <= |s.core.log| && topic in At(s, n).core.aliases.given
    ensures topic in s.core.aliases.given && s.core.aliases.given[topic] == At(s, n).core.aliases.given[topic]
    decreases |s.core.log|
  {
    hide At, Guard, Effect;
    if n == |s.core.log| {
      AtIsSound(s, n);
    } else {
      BeforeIsSound(s);
      AtIsAt(s, n);
      AliasesNeverChange(Before(s), n, topic);
      AliasesGrow(Before(s), Last(s), topic);
    }
  }

  lemma AtIsAt(s: State, n: nat)
    requires Sound(s) && n < |s.core.log|
    ensures n <= |Before(s).core.log| && At(Before(s), n) == At(s, n)
  {
    BeforeIsSound(s);
    AtIsSound(s, |s.core.log| - 1);
    assert Before(s).core.log[..n] == s.core.log[..n];
  }

  lemma AliasesGrow(s: State, e: Event, topic: Topic)
    requires Guard(s, e) && topic in s.core.aliases.given
    ensures var t := Apply(s, e).core.aliases; topic in t.given && t.given[topic] == s.core.aliases.given[topic]
  {
    hide AfterSend, AfterArrival, MaySend;
    if !e.AliasAssigned? {
      OthersKeepAliases(s.core, e);
    }
  }

  predicate SendsAliased(e: Event, topic: Topic) {
    e.Sent? && e.packet.Publish? && e.packet.alias.Some? && e.packet.topic == topic
  }

  lemma PacketsUseTheTable(s: State, j: nat, topic: Topic)
    requires Sound(s) && j < |s.core.log| && SendsAliased(s.core.log[j], topic)
    requires topic in At(s, j).core.aliases.given
    ensures topic in s.core.aliases.given && s.core.log[j].packet.alias.value == s.core.aliases.given[topic]
  {
    AtIsSound(s, j);
    AliasesNeverChange(s, j, topic);
  }

  /** Two aliased PUBLISHes of topics in the table carry the same alias exactly when their topics are
      the same, as long as at most 65535 topics were given one. */
  lemma SameTableAliasIff(s: State, i: nat, j: nat, x: Topic, y: Topic)
    requires Sound(s) && i < |s.core.log| && j < |s.core.log| && |Named(s.core.log)| <= 65535
    requires SendsAliased(s.core.log[i], x) && x in At(s, i).core.aliases.given
    requires SendsAliased(s.core.log[j], y) && y in At(s, j).core.aliases.given
    ensures s.core.log[i].packet.alias == s.core.log[j].packet.alias <==> x == y
  {
    hide At;
    PacketsUseTheTable(s, i, x);
    PacketsUseTheTable(s, j, y);
    UsableIffFewTopics(s);
  }

  // ---------------------------------------------------------------- runs without caller aliases

  /** No version 5 publish of the run asked for an alias of its own. */
  predicate NoneAsked(log: seq<Event>) {
    forall j :: 0 <= j < |log| && log[j].Called? && log[j].op.PublishV5Op? ==> log[j].op.asked == None
  }

  lemma {:induction false} AsksNothing(log: seq<Event>)
    requires NoneAsked(log)
    ensures AskedBy(log) == None
    decreases |log|
  {
    if log != [] && !log[|log| - 1].Called? {
      AsksNothing(log[..|log| - 1]);
    }
  }

  lemma AliasComesFrom(c: Core, e: Event, topic: Topic)
    requires GuardCore(c, e) && SendsAliased(e, topic)
    ensures e.packet.alias == if topic in c.aliases.given then Some(c.aliases.given[topic]) else AskedBy(c.log)
  {
    hide SendEvent;
  }

  /** Then every aliased PUBLISH is of a topic in the table. */
  lemma AliasedIsInTable(s: State, j: nat, topic: Topic)
    requires Sound(s) && j < |s.core.log| && SendsAliased(s.core.log[j], topic) && NoneAsked(s.core.log[..j])
    ensures topic in At(s, j).core.aliases.given
  {
    hide At, Guard, GuardCore;
    AtIsSound(s, j);
    GuardIsCore(At(s, j), s.core.log[j]);
    AliasComesFrom(At(s, j).core, s.core.log[j], topic);
    AsksNothing(s.core.log[..j]);
  }

  /** In a run whose callers ask for no alias and that names at most 65535 topics, two aliased PUBLISHes
      carry the same alias if and only if they are of the same topic. */
  lemma SameAliasIffSameTopic(s: State, i: nat, j: nat, x: Topic, y: Topic)
    requires Sound(s) && NoneAsked(s.core.log) && |Named(s.core.log)| <= 65535
    requires i < |s.core.log| && SendsAliased(s.core.log[i], x)
    requires j < |s.core.log| && SendsAliased(s.core.log[j], y)
    ensures s.core.log[i].packet.alias == s.core.log[j].packet.alias <==> x == y
  {
    hide At, SendsAliased, Named;
    AliasedIsInTable(s, i, x);
    AliasedIsInTable(s, j, y);
    SameTableAliasIff(s, i, j, x, y);
  }

  // ---------------------------------------------------------------- caller aliases

  /** Another topic of the table has the alias k. */
  predicate Clashes(t: Table, y: Topic, k: nat) { exists x :: x in t.given && x != y && t.given[x] == k }

  lemma TableAt(t: Table, named: seq<Topic>, n: nat)
    requires Orderly(t, named) && n < |named| <= 65535
    ensures named[n] in t.given && t.given[named[n]] == n + 1
  {
  }

  lemma NamedAt(t: Table, named: seq<Topic>, x: Topic)
    requires Orderly(t, named) && x in t.given
    ensures x in named
  {
  }

  lemma ClashesIff(t: Table, named: seq<Topic>, y: Topic, k: nat)
    requires Orderly(t, named) && |named| <= 65535
    ensures Clashes(t, y, k) <==> 1 <= k <= |named| && named[k - 1] != y
  {
    hide Orderly;
    if 1 <= k <= |named| && named[k - 1] != y {
      TableAt(t, named, k - 1);
    }
    if Clashes(t, y, k) {
      var x :| x in t.given && x != y && t.given[x] == k;
      NamedAt(t, named, x);
      var n :| 0 <= n < |named| && named[n] == x;
      TableAt(t, named, n);
    }
  }

  /** A PUBLISH of a topic y outside the table carries the alias k its caller asked for, unchecked. At
      the time it is sent another topic has that alias if and only if k is one of the n aliases given
      out so far, that is 1 <= k <= n. By the end of the run another topic has it if and only if the
      run has named a k-th topic other than y: an alias that was free then can clash later. */
  lemma AskedAliasClashesIff(s: State, j: nat, y: Topic)
    requires Sound(s) && j < |s.core.log| && |Named(s.core.log)| <= 65535
    requires SendsAliased(s.core.log[j], y) && y !in At(s, j).core.aliases.given
    ensures AskedBy(s.core.log[..j]) == s.core.log[j].packet.alias
    ensures var k, t, named := s.core.log[j].packet.alias.value, At(s, j).core.aliases, Named(s.core.log[..j]);
            Clashes(t, y, k) <==> 1 <= k <= |named|
    ensures var k, named := s.core.log[j].packet.alias.value, Named(s.core.log);
            Clashes(s.core.aliases, y, k) <==> 1 <= k <= |named| && named[k - 1] != y
  {
    hide At, Guard, GuardCore, Sound, Orderly;
    var k, now, named := s.core.log[j].packet.alias.value, At(s, j), Named(s.core.log[..j]);
    AtIsSound(s, j);
    GuardIsCore(now, s.core.log[j]);
    AliasComesFrom(now.core, s.core.log[j], y);
    TableIsOrderly(now);
    TableIsOrderly(s);
    NamesGrow(s.core.log, j);
    ClashesIff(now.core.aliases, named, y, k);
    ClashesIff(s.core.aliases, Named(s.core.log), y, k);
    NamedAreGiven(now.core.aliases, named);
  }

  lemma NamedAreGiven(t: Table, named: seq<Topic>)
    requires Orderly(t, named)
    ensures forall k :: 0 <= k < |named| ==> named[k] in t.given
  {
  }

  lemma {:induction false} NamesGrow(log: seq<Event>, j: nat)
    requires j <= |log|
    ensures Named(log[..j]) <= Named(log)
    decreases |log|
  {
    if j < |log| {
      NamesGrow(log[..|log| - 1], j);
      assert log[..|log| - 1][..j] == log[..j];
    } else {
      assert log[..j] == log;
    }
  }
}
