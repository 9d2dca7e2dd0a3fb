/** Where the messages of a queue stand in the exchange with their client, and how an event moves them on. */
module Phases {
  import opened Sequences
  import opened Session

  /**
    A message waits for a place; is on its way to the client, until it is acknowledged; is confirmed by a PUBREC of the
    client, until the PUBCOMP; was received from the client, until its PUBREL; or was received and goes back to it.
  */
  datatype Phase = Parked | Going | Confirmed | Received | Returned

  function PhaseOf(e: Entry): Phase {
    if e.state == Queued then Parked
    else if e.key.dir == In then if e.state == SendPubrec || e.state == WaitForPubrel then Received else Returned
    else if e.state == ResendPubrel || e.state == WaitForPubcomp then Confirmed
    else Going
  }

  /** The packet of its phase is to be sent. */
  predicate Due(e: Entry) {
    e.state == PublishQos0 || e.state == PublishQos1 || e.state == PublishQos2 || e.state == SendPubrec
    || e.state == ResendPubrel
  }

  /** The packet of its phase was sent, or need not be, and the answer of the client is to come. */
  predicate Awaits(e: Entry) {
    e.state != Queued && !Due(e)
  }

  /** Where an entry stands is all that its state says. */
  lemma StateFromPhase(e: Entry, e': Entry)
    requires StateFits(e) && StateFits(e') && e'.key == e.key && PhaseOf(e') == PhaseOf(e) && Due(e') == Due(e)
    ensures e'.state == e.state
  {
  }

  /** What can happen to the queue of a session in one event. */
  datatype Cause =
    | Nothing
    | Writing
    | Overdue(threshold: int, now: int)
    | Confirming(mid: nat)
    | Acknowledged(mid: nat)
    | Released(mid: nat)
    | Resumed
    | Ended

  /** The phase of an entry that need not wait any longer. */
  predicate Begun(e: Entry) {
    PhaseOf(e) == if e.key.dir == Out then Going else Received
  }

  /** A waiting entry is started; an outgoing one is due then. */
  predicate Begins(e: Entry, e': Entry) {
    && e.state == Queued && e'.key == e.key && e'.dup == e.dup
    && Begun(e') && (e.key.dir == Out ==> Due(e'))
  }

  /** What an entry becomes. */
  predicate Onward(e: Entry, e': Entry, cause: Cause) {
    match cause
    case Writing => e' == e || Begins(e, e') || Sent(e, e')
    case Overdue(threshold, now) =>
      if Awaits(e) && e.timestamp < threshold
      then e'.key == e.key && PhaseOf(e') == PhaseOf(e) && Due(e') && e'.dup && e'.timestamp == now
      else e' == e
    case Confirming(mid) =>
      e' == e
      || (e.key.dir == Out && e.key.mid == mid && e'.key == e.key && e'.dup == e.dup && PhaseOf(e') == Confirmed
          && !Due(e'))
    case Resumed => Again(e, e')
    case Acknowledged(_) => e' == e || Begins(e, e')
    case Released(_) => e' == e || Begins(e, e')
    case _ => e' == e
  }

  /** The packet of an entry was sent; a PUBLISH is a repeated one from then on. */
  predicate Sent(e: Entry, e': Entry) {
    && e'.key == e.key && (e.dup ==> e'.dup) && Awaits(e')
    && (if e.state == Queued then Begun(e') else Due(e) && PhaseOf(e') == PhaseOf(e))
    && (PhaseOf(e') == Going || PhaseOf(e') == Returned ==> e'.dup)
  }

  /**
    The client connects again. What was on its way is published again, and so is a confirmed message of which the PUBREL
    was to be repeated; only one that waits for its PUBCOMP stays confirmed. What was received stays so. An incoming
    entry that waits may be sent back.
  */
  predicate Again(e: Entry, e': Entry) {
    && e'.key == e.key && e'.dup == e.dup && e'.timestamp == e.timestamp
    && match PhaseOf(e)
       case Parked => e' == e || (Due(e') && PhaseOf(e') == if e.key.dir == Out then Going else Returned)
       case Going => PhaseOf(e') == Going && Due(e')
       case Confirmed =>
         Due(e') && PhaseOf(e') == if e.state == WaitForPubcomp && e.key.qos >= 2 then Confirmed else Going
       case _ => e' == e
  }

  /** What may leave the queue. */
  predicate MayGo(e: Entry, cause: Cause) {
    match cause
    case Writing => e.key.dir == Out && e.key.qos == 0
    case Acknowledged(mid) => e.key.dir == Out && e.key.mid == mid
    case Released(mid) => e.key.dir == In && e.key.mid == mid
    case Ended => true
    case _ => false
  }

  /**
    What may come to the end of the queue: an outgoing message, due or parked; or an incoming one, which was answered
    already unless it is parked.
  */
  predicate MayCome(e: Entry, cause: Cause) {
    && (cause.Nothing? || (cause.Released? && e.key.dir == Out))
    && !e.dup && (e.state == Queued || (Begun(e) && (e.key.dir == Out <==> Due(e))))
  }

  predicate AllCome(msgs: seq<Entry>, cause: Cause) {
    forall k | 0 <= k < |msgs| :: MayCome(msgs[k], cause)
  }

  /**
    A queue after an event: in the same order, every entry has moved on or is one that may go, and others may have come
    behind them.
  */
  predicate Follows(before: seq<Entry>, after: seq<Entry>, cause: Cause)
    decreases |before|
  {
    if before == [] then AllCome(after, cause)
    else
      || (after != [] && Onward(before[0], after[0], cause) && Follows(before[1..], after[1..], cause))
      || (MayGo(before[0], cause) && Follows(before[1..], after, cause))
  }

  /** Causes that can take effect step by step. */
  predicate Stepwise(cause: Cause) {
    cause.Nothing? || cause.Writing? || cause.Acknowledged? || cause.Released?
  }

  /** Those among them by which parked messages can be started. */
  predicate Starting(cause: Cause) {
    cause.Writing? || cause.Acknowledged? || cause.Released?
  }

  lemma OnwardTwice(e: Entry, e1: Entry, e2: Entry, cause: Cause)
    requires Stepwise(cause)
    ensures Onward(e, e1, cause) && Onward(e1, e2, cause) ==> Onward(e, e2, cause)
    ensures MayGo(e1, cause) && Onward(e, e1, cause) ==> MayGo(e, cause)
    ensures !cause.Writing? && MayCome(e, cause) && Onward(e, e1, cause) ==> MayCome(e1, cause)
  {
  }

  lemma {:induction false} ComesFurther(mid: seq<Entry>, after: seq<Entry>, cause: Cause)
    requires Stepwise(cause) && AllCome(mid, cause) && Follows(mid, after, cause)
    ensures AllCome(after, cause)
  {
    if mid != [] {
      // What comes in an event does not go in it.
      assert MayCome(mid[0], cause) && !MayGo(mid[0], cause);
      assert forall k | 0 <= k < |mid| - 1 :: mid[1..][k] == mid[k + 1];
      ComesFurther(mid[1..], after[1..], cause);
      OnwardTwice(mid[0], after[0], after[0], cause);
      forall k | 0 <= k < |after| ensures MayCome(after[k], cause) {
        if k > 0 { assert after[1..][k - 1] == after[k]; }
      }
    }
  }

  lemma {:induction false} FollowsTrans(before: seq<Entry>, mid: seq<Entry>, after: seq<Entry>, cause: Cause)
    requires Stepwise(cause) && Follows(before, mid, cause) && Follows(mid, after, cause)
    ensures Follows(before, after, cause)
    decreases |before| + |mid|
  {
    hide Onward, MayGo, MayCome;
    if before == [] {
      ComesFurther(mid, after, cause);
    } else if mid != [] && Onward(before[0], mid[0], cause) && Follows(before[1..], mid[1..], cause) {
      if after != [] && Onward(mid[0], after[0], cause) && Follows(mid[1..], after[1..], cause) {
        FollowsTrans(before[1..], mid[1..], after[1..], cause);
        OnwardTwice(before[0], mid[0], after[0], cause);
      } else {
        FollowsTrans(before[1..], mid[1..], after, cause);
        OnwardTwice(before[0], mid[0], mid[0], cause);
      }
    } else {
      FollowsTrans(before[1..], mid, after, cause);
    }
  }

  lemma {:induction false} FollowsEach(before: seq<Entry>, after: seq<Entry>, cause: Cause)
    requires |after| == |before| && forall k | 0 <= k < |before| :: Onward(before[k], after[k], cause)
    ensures Follows(before, after, cause)
  {
    hide Onward;
    if before != [] {
      assert forall k | 0 <= k < |before| - 1 :: before[1..][k] == before[k + 1] && after[1..][k] == after[k + 1];
      FollowsEach(before[1..], after[1..], cause);
    }
  }

  lemma FollowsSame(msgs: seq<Entry>, cause: Cause)
    requires Stepwise(cause)
    ensures Follows(msgs, msgs, cause)
  {
    FollowsEach(msgs, msgs, cause);
  }

  lemma {:induction false} FollowsMore(before: seq<Entry>, after: seq<Entry>, cause: Cause)
    requires Stepwise(cause) && |before| <= |after| && after[..|before|] == before && AllCome(after[|before|..], cause)
    ensures Follows(before, after, cause)
  {
    hide MayCome;
    if before == [] {
      assert after[0..] == after;
    } else {
      assert after[0] == after[..|before|][0] == before[0];
      assert after[1..][..|before| - 1] == after[..|before|][1..] == before[1..];
      assert after[1..][|before| - 1..] == after[|before|..];
      FollowsMore(before[1..], after[1..], cause);
    }
  }

  lemma {:induction false} FollowsRemoved(msgs: seq<Entry>, i: nat, cause: Cause)
    requires Stepwise(cause) && i < |msgs| && MayGo(msgs[i], cause)
    ensures Follows(msgs, Removed(msgs, i), cause)
  {
    hide MayGo;
    var r := Removed(msgs, i);
    if i == 0 {
      assert r == msgs[1..];
      FollowsSame(msgs[1..], cause);
    } else {
      assert r[0] == msgs[0] && r[1..] == Removed(msgs[1..], i - 1);
      FollowsRemoved(msgs[1..], i - 1, cause);
    }
  }

  lemma FollowsStarted(msgs: seq<Entry>, i: nat, e: Entry, cause: Cause)
    requires Starting(cause) && i < |msgs| && Begins(msgs[i], e)
    ensures Follows(msgs, msgs[i := e], cause)
  {
    FollowsEach(msgs, msgs[i := e], cause);
  }

  lemma {:induction false} FollowsEnded(msgs: seq<Entry>)
    ensures Follows(msgs, [], Ended)
  {
    if msgs != [] { FollowsEnded(msgs[1..]); }
  }

  // ----- all sessions -----

  /** All sessions after an event that concerns the one of client `c`. */
  ghost predicate AllFollow(before: seq<Context>, after: seq<Context>, c: nat, cause: Cause) {
    && |before| == |after|
    && (forall d: nat {:trigger FollowsAt(before, after, c, cause, d)} :: FollowsAt(before, after, c, cause, d))
  }

  ghost predicate FollowsAt(before: seq<Context>, after: seq<Context>, c: nat, cause: Cause, d: nat) {
    d < |before| && d < |after| ==> Follows(before[d].msgs, after[d].msgs, if d == c then cause else Nothing)
  }

  lemma AllFollowTrans(s0: seq<Context>, s1: seq<Context>, s2: seq<Context>, c: nat, cause: Cause)
    requires Stepwise(cause) && AllFollow(s0, s1, c, cause) && AllFollow(s1, s2, c, cause)
    ensures AllFollow(s0, s2, c, cause)
  {
    hide Follows;
    forall d: nat ensures FollowsAt(s0, s2, c, cause, d) {
      assert FollowsAt(s0, s1, c, cause, d) && FollowsAt(s1, s2, c, cause, d);
      if d < |s0| { FollowsTrans(s0[d].msgs, s1[d].msgs, s2[d].msgs, if d == c then cause else Nothing); }
    }
  }

  lemma AllFollowOnly(before: seq<Context>, after: seq<Context>, c: nat, cause: Cause)
    requires Only(c, before, after) && Follows(before[c].msgs, after[c].msgs, cause)
    ensures AllFollow(before, after, c, cause)
  {
    hide Follows;
    forall d: nat ensures FollowsAt(before, after, c, cause, d) {
      if d < |before| && d != c { FollowsSame(before[d].msgs, Nothing); }
    }
  }

  lemma AllFollowSame(contexts: seq<Context>, c: nat, cause: Cause)
    requires Stepwise(cause)
    ensures AllFollow(contexts, contexts, c, cause)
  {
    hide Follows;
    forall d: nat ensures FollowsAt(contexts, contexts, c, cause, d) {
      if d < |contexts| { FollowsSame(contexts[d].msgs, if d == c then cause else Nothing); }
    }
  }

  /** Fresh copies have come, and nothing else has changed. */
  lemma AllFollowIncoming(before: seq<Context>, after: seq<Context>, c: nat, cause: Cause)
    requires AllIncoming(before, after) && (cause.Nothing? || cause.Released?)
    ensures AllFollow(before, after, c, cause)
  {
    hide Follows;
    forall d: nat ensures FollowsAt(before, after, c, cause, d) {
      assert StillIncoming(before, after, d);
      if d < |before| {
        FollowsFresh(before[d].msgs, after[d].msgs, if d == c then cause else Nothing);
      }
    }
  }

  lemma FollowsFresh(before: seq<Entry>, after: seq<Entry>, cause: Cause)
    requires |before| <= |after| && after[..|before|] == before && (cause.Nothing? || cause.Released?)
    requires forall k | |before| <= k < |after| :: FreshCopy(after[k])
    ensures Follows(before, after, cause)
  {
    hide Follows;
    var more := after[|before|..];
    forall k | 0 <= k < |more| ensures MayCome(more[k], cause) {
      assert FreshCopy(after[|before| + k]);
    }
    FollowsMore(before, after, cause);
  }
}
