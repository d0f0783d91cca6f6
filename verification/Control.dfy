/** What every reachable state keeps about the control flow between events. */
module Control {
  import opened Mqtt
  import opened SessionModel
  import opened Machine

  /** reply is what receiving cause makes the engine owe. */
  predicate Answers(reply: Packet, cause: Packet) {
    match reply
    case Puback(p) => cause.Publish? && cause.qosPid == Level1(p)
    case Pubrec(p) => cause.Publish? && cause.qosPid == Level2(p)
    case Pubcomp(p) => cause == Pubrel(p)
    case Pubrel(p) => cause == Pubrec(p)
    case _ => false
  }

  predicate ArrivedLast(log: seq<Event>, pk: Packet) {
    |log| > 0 && log[|log| - 1].Arrived? && log[|log| - 1].packet == pk
  }

  /** The previous event is the successful reply to pk, or pk itself when it needs none. */
  predicate AnsweredLast(log: seq<Event>, pk: Packet) {
    || (ArrivedLast(log, pk) && pk.Publish? && pk.qosPid.Level0?)
    || (&& |log| > 1
        && var e := log[|log| - 1];
           e.Sent? && e.ok && Answers(e.packet, pk) && ArrivedLast(log[..|log| - 1], pk))
  }

  predicate CtxOk(c: Core) {
    match c.ctx
    case Idle => true
    case Owing(reply, cause) =>
      && c.connected
      && Answers(reply, cause)
      && ArrivedLast(c.log, cause)
      && (reply.Pubrel? ==> reply.pid !in c.sess.pubs)
    case Delivering(cause) => c.connected && cause.Publish? && AnsweredLast(c.log, cause)
    case Confirming(p, codes) => c.connected && ArrivedLast(c.log, Suback(p, codes))
    case Resuming(left) => c.connected && left != {} && left <= c.sess.pubs.Keys
  }

  /** Connected above means connected below; stored messages are QoS 1 or 2 and have been counted
      at most three times; the work left over by the last event is as that event says; and a
      message that has just been stored finds the call ready to send it. */
  predicate InControl(s: State) {
    var c := s.core;
    && (s.app.status == Connected ==> c.connected)
    && (forall p :: p in c.sess.pubs ==> c.sess.pubs[p].qos != AtMostOnce && c.sess.pubs[p].retryCount <= 3)
    && CtxOk(c)
    && (JustStored(c.log) ==> c.ctx.Idle? && c.connected)
    && c.sess.capacity == c.cfg.maxSubscriptions
  }

  lemma SendKeepsControl(s: State, e: Event)
    requires InControl(s) && Guard(s, e) && e.Sent?
    ensures InControl(Apply(s, e))
  {
    var c, d := s.core, Apply(s, e).core;
    assert d.log[..|d.log| - 1] == c.log;
    assert d.log[|d.log| - 1] == e;
    assert d.sess.pubs == c.sess.pubs;
  }

  lemma ArrivalKeepsControl(s: State, e: Event)
    requires InControl(s) && Guard(s, e) && e.Arrived?
    ensures InControl(Apply(s, e))
  {
    var c, d := s.core, Apply(s, e).core;
    assert d.log[|d.log| - 1] == e;
    assert forall p :: p in d.sess.pubs ==> p in c.sess.pubs && d.sess.pubs[p] == c.sess.pubs[p];
  }

  lemma StepKeepsControl(s: State, e: Event)
    requires InControl(s) && Guard(s, e)
    ensures InControl(Apply(s, e))
  {
    var d := Apply(s, e).core;
    if e.Sent? {
      SendKeepsControl(s, e);
    } else if e.Arrived? {
      ArrivalKeepsControl(s, e);
    } else {
      assert d.log[|d.log| - 1] == e;
    }
  }

  lemma {:induction false} ControlHolds(s: State)
    requires Sound(s)
    ensures InControl(s)
    decreases |s.core.log|
  {
    if s.core.log != [] {
      BeforeIsSound(s);
      ControlHolds(Before(s));
      StepKeepsControl(Before(s), Last(s));
    }
  }
}
