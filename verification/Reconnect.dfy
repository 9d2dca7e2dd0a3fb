/** What a client is sent when it has come back to its queue. */
module Reconnect {
  import opened Sequences
  import opened Session
  import opened Phases
  import opened Broker

  /** The queue that the new connection takes over. */
  function Reset(msgs: seq<Entry>, limits: Limits): seq<Entry> {
    seq(|msgs|, k requires 0 <= k < |msgs| => msgs[k].(state := ResetQueueState(msgs[k], k, limits)))
  }

  /**
    A reconnect keeps a QoS 2 message confirmed just when it waits for its PUBCOMP. One that is about to repeat its
    PUBREL is published again, though the client has confirmed it with a PUBREC.
  */
  lemma ConfirmedAfterReset(e: Entry, k: nat, limits: Limits)
    requires StateFits(e) && PhaseOf(e) == Confirmed && e.key.qos == 2
    ensures var e' := e.(state := ResetQueueState(e, k, limits));
            && Due(e') && PhaseOf(e') == (if e.state == WaitForPubcomp then Confirmed else Going)
            && (e.state == ResendPubrel ==> e'.state == PublishQos2)
  {
  }

  predicate Publishes(s: State) {
    s.PublishQos0? || s.PublishQos1? || s.PublishQos2?
  }

  /**
    An entry of a message that the client itself has sent, and which it is going to be sent now: an entry that waits for
    a place is started without a look at its direction.
  */
  predicate SentBack(msgs: seq<Entry>, k: nat, limits: Limits) {
    && k < |msgs| && msgs[k].key.dir == In
    && (Publishes(msgs[k].state) || (msgs[k].state == Queued && (limits.maxInflight == 0 || k < limits.maxInflight)))
  }

  /** A PUBLISH that comes from an entry of the queue. */
  ghost predicate ComesFrom(p: Packet, k: nat, msgs: seq<Entry>) {
    && p.Publish? && k < |msgs| && p.message == msgs[k].key.store && p.mid == msgs[k].key.mid
    && p.qos == msgs[k].key.qos && p.retain == msgs[k].key.retain
  }

  /** Every such entry is published to its own sender, if the walk comes to the end. */
  lemma IncomingPublished(msgs: seq<Entry>, left: nat, c: nat, limits: Limits, now: int, k: nat)
    requires SentBack(msgs, k, limits)
    ensures var w := WriteOut(Reset(msgs, limits), 0, 0, left, c, limits, now);
            w.done ==> exists p :: p in w.packets && ComesFrom(p, k, msgs)
  {
    hide WriteOut;
    var queue := Reset(msgs, limits);
    var p := Outgoing(queue[k], c).value;
    assert ComesFrom(p, k, msgs);
    DueIsWritten(queue, 0, 0, left, c, limits, now, k);
  }

  /** And nothing else is: all other publications come from outgoing entries. */
  lemma OutgoingPublished(msgs: seq<Entry>, left: nat, c: nat, limits: Limits, now: int, p: Packet)
    requires p in WriteOut(Reset(msgs, limits), 0, 0, left, c, limits, now).packets && p.Publish?
    ensures exists k: nat :: ComesFrom(p, k, msgs) && (msgs[k].key.dir == Out || SentBack(msgs, k, limits))
  {
    hide WriteOut;
    var queue := Reset(msgs, limits);
    PublishedFrom(queue, 0, 0, left, c, limits, now, p);
    var k: nat :| ComesFrom(p, k, queue) && MayPublish(queue[k]);
    assert ComesFrom(p, k, msgs);
  }

  predicate MayPublish(e: Entry) {
    e.key.dir == Out || Publishes(e.state)
  }

  ghost predicate MayCome(p: Packet, msgs: seq<Entry>) {
    exists k: nat :: ComesFrom(p, k, msgs) && MayPublish(msgs[k])
  }

  /** What an entry does not publish before it is written, it does not publish later in the walk either. */
  lemma StillFrom(msgs: seq<Entry>, i: nat, e: Entry, p: Packet)
    requires i < |msgs| && e.key == msgs[i].key && (MayPublish(e) ==> MayPublish(msgs[i]))
    ensures MayCome(p, msgs[i := e]) ==> MayCome(p, msgs)
  {
    if MayCome(p, msgs[i := e]) {
      var k: nat :| ComesFrom(p, k, msgs[i := e]) && MayPublish(msgs[i := e][k]);
      assert ComesFrom(p, k, msgs);
    }
  }

  /** And neither do those that are left when it is gone. */
  lemma LeftFrom(msgs: seq<Entry>, i: nat, limits: Limits, p: Packet)
    requires i < |msgs|
    ensures MayCome(p, HeadPromoted(Removed(msgs, i), limits)) ==> MayCome(p, msgs)
  {
    hide HeadPromoted, WaitUpTo;
    var next := HeadPromoted(Removed(msgs, i), limits);
    if MayCome(p, next) {
      var k: nat :| ComesFrom(p, k, next) && MayPublish(next[k]);
      HeadPromotedStates(Removed(msgs, i), limits);
      assert ComesFrom(p, if k < i then k else k + 1, msgs);
    }
  }

  /** A walk publishes outgoing entries, and incoming ones that are in the state of outgoing ones already. */
  lemma {:induction false} PublishedFrom(msgs: seq<Entry>, i: nat, msgCount: nat, left: nat, c: nat, limits: Limits,
                                         now: int, p: Packet)
    requires i <= |msgs| && p in WriteOut(msgs, i, msgCount, left, c, limits, now).packets && p.Publish?
    ensures MayCome(p, msgs)
    decreases |msgs| - i, if i < |msgs| && msgs[i].state == Queued then 1 else 0
  {
    hide HeadPromoted, MayCome;
    var e, count := msgs[i], msgCount + if msgs[i].key.dir == In then 1 else 0;
    if e.state != Queued {
      var sent := AfterSending(e, now);
      StillFrom(msgs, i, sent, p);
      LeftFrom(msgs, i, limits, p);
      if Outgoing(e, c).None? {
        PublishedFrom(msgs, i + 1, count, left, c, limits, now, p);
      } else if p == Outgoing(e, c).value {
        ItsOwn(msgs, i, c);
      } else if e.state == PublishQos0 {
        PublishedFrom(HeadPromoted(Removed(msgs, i), limits), i, count, left - 1, c, limits, now, p);
      } else {
        PublishedFrom(msgs[i := sent], i + 1, count, left - 1, c, limits, now, p);
      }
    } else if e.key.dir == In && e.key.qos == 2 && (limits.maxInflight == 0 || count < limits.maxInflight) {
      StillFrom(msgs, i, e.(state := SendPubrec), p);
      PublishedFrom(msgs[i := e.(state := SendPubrec)], i, count, left, c, limits, now, p);
    } else {
      PublishedFrom(msgs, i + 1, count, left, c, limits, now, p);
    }
  }

  lemma ItsOwn(msgs: seq<Entry>, i: nat, c: nat)
    requires i < |msgs|
    ensures Outgoing(msgs[i], c).Some? && Outgoing(msgs[i], c).value.Publish? ==>
              MayCome(Outgoing(msgs[i], c).value, msgs)
  {
    if Outgoing(msgs[i], c).Some? && Outgoing(msgs[i], c).value.Publish? {
      assert ComesFrom(Outgoing(msgs[i], c).value, i, msgs);
    }
  }

  /** With two places, a client has sent messages 2 and 3 with QoS 2, of which the second waits for a place. */
  function TwoIncoming(now: int): seq<Entry> {
    [Entry(Key(2, 1, 2, false, In), WaitForPubrel, false, now), Entry(Key(3, 2, 2, false, In), Queued, false, now)]
  }

  /**
    The second message has come behind an outgoing one, since acknowledged, and message 1 with QoS 0. Once this one is
    written, the second message is among the first two, but goes on waiting. After a reconnect it is published to the
    client that has sent it.
  */
  lemma OwnMessageBack(c: nat, limits: Limits, now: int)
    requires limits.maxInflight == 2
    ensures var queue := [Entry(Key(1, 0, 0, false, Out), PublishQos0, false, now)] + TwoIncoming(now);
            WriteOut(queue, 0, 0, 9, c, limits, now) ==
            Written(TwoIncoming(now), [Publish(c, 1, 0, 0, false, false)], true)
    ensures WriteOut(Reset(TwoIncoming(now), limits), 0, 0, 9, c, limits, now).packets ==
            [Publish(c, 3, 2, 2, false, false)]
  {
    StillWaits(c, limits, now);
    IsStarted(c, limits, now);
  }

  lemma StillWaits(c: nat, limits: Limits, now: int)
    requires limits.maxInflight == 2
    ensures var queue := [Entry(Key(1, 0, 0, false, Out), PublishQos0, false, now)] + TwoIncoming(now);
            WriteOut(queue, 0, 0, 9, c, limits, now) ==
            Written(TwoIncoming(now), [Publish(c, 1, 0, 0, false, false)], true)
  {
    var queue := [Entry(Key(1, 0, 0, false, Out), PublishQos0, false, now)] + TwoIncoming(now);
    var left := TwoIncoming(now);
    assert Removed(queue, 0) == left && HeadPromoted(left, limits) == left;
    assert WriteOut(left, 1, 1, 8, c, limits, now) == Written(left, [], true);
    assert WriteOut(left, 0, 0, 8, c, limits, now) == Written(left, [], true);
  }

  lemma IsStarted(c: nat, limits: Limits, now: int)
    requires limits.maxInflight == 2
    ensures WriteOut(Reset(TwoIncoming(now), limits), 0, 0, 9, c, limits, now).packets ==
            [Publish(c, 3, 2, 2, false, false)]
  {
    var reset := Reset(TwoIncoming(now), limits);
    assert reset[1].state == PublishQos2 && reset[0].state == WaitForPubrel;
    assert WriteOut(reset[1 := AfterSending(reset[1], now)], 2, 2, 8, c, limits, now).packets == [];
    assert WriteOut(reset, 1, 1, 9, c, limits, now).packets == [Publish(c, 3, 2, 2, false, false)];
  }
}
