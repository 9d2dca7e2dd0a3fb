/** Accounts of the QoS 2 messages that clients have sent: each is waiting, handed on or given up. */
module Accounts {
  import opened Sequences
  import opened Session

  /**
    `accepted` are the QoS 2 messages taken into a session. `routed` counts how often a message was handed on for
    distribution; `discarded` counts those given up without, because the sender was denied the topic or its session
    ended; `reused` counts the QoS 1 publications under the packet id of a message that waited.
  */
  datatype Log = Log(accepted: set<nat>, routed: multiset<nat>, discarded: multiset<nat>, reused: multiset<nat>)

  /** How many incoming entries hold a message. */
  ghost function Waiting(contexts: seq<Context>, m: nat): nat {
    CountAll(contexts, RefersIn(m))
  }

  ghost predicate WaitsAlike(before: seq<Context>, after: seq<Context>, m: nat) {
    Waiting(after, m) == Waiting(before, m)
  }

  ghost predicate SameWaiting(before: seq<Context>, after: seq<Context>) {
    forall m {:trigger WaitsAlike(before, after, m)} :: WaitsAlike(before, after, m)
  }

  ghost predicate Accounted(log: Log, contexts: seq<Context>, next: nat, m: nat) {
    if m in log.accepted then
      m < next && log.routed[m] + Waiting(contexts, m) + log.discarded[m] == 1 + log.reused[m]
    else
      Waiting(contexts, m) == 0 && log.discarded[m] == 0 && log.reused[m] == 0 && log.routed[m] <= if m < next then 1
          else 0
  }

  /**
    Every message accepted into a session waits there, or has been handed on exactly once, or was given up, unless
    its packet id was reused for a QoS 1 message; any other message is handed on at most once.
  */
  ghost predicate Once(log: Log, contexts: seq<Context>, next: nat) {
    forall m: nat {:trigger Accounted(log, contexts, next, m)} :: Accounted(log, contexts, next, m)
  }

  // ----- sessions that hold the same incoming messages -----

  lemma {:induction false} CountAllPointwise(before: seq<Context>, after: seq<Context>, p: Key -> bool)
    requires |before| == |after| && forall c | 0 <= c < |before| ::
               Count(Keys(after[c].msgs), p) == Count(Keys(before[c].msgs), p)
    ensures CountAll(after, p) == CountAll(before, p)
  {
    if before != [] {
      assert forall c | 0 <= c < |before| - 1 :: before[1..][c] == before[c + 1] && after[1..][c] == after[c + 1];
      CountAllPointwise(before[1..], after[1..], p);
    }
  }

  lemma IncomingCount(s0: Context, s: Context, m: nat)
    requires SameIncoming(s0, s)
    ensures Count(Keys(s.msgs), RefersIn(m)) == Count(Keys(s0.msgs), RefersIn(m))
  {
    var keys, keys0 := Keys(s.msgs), Keys(s0.msgs);
    assert forall k | 0 <= k < |s0.msgs| :: s.msgs[k] == s.msgs[..|s0.msgs|][k];
    assert keys == keys0 + keys[|keys0|..];
    CountAppend(keys0, keys[|keys0|..], RefersIn(m));
    CountZero(keys[|keys0|..], RefersIn(m));
  }

  lemma IncomingWaits(before: seq<Context>, after: seq<Context>)
    requires AllIncoming(before, after)
    ensures SameWaiting(before, after)
  {
    forall m ensures WaitsAlike(before, after, m) {
      forall c | 0 <= c < |before|
          ensures Count(Keys(after[c].msgs), RefersIn(m)) == Count(Keys(before[c].msgs), RefersIn(m)) {
        assert StillIncoming(before, after, c);
        IncomingCount(before[c], after[c], m);
      }
      CountAllPointwise(before, after, RefersIn(m));
    }
  }

  /** Only the keys of the queues matter. */
  lemma KeysWait(before: seq<Context>, after: seq<Context>)
    requires |before| == |after| && forall c | 0 <= c < |before| :: Keys(after[c].msgs) == Keys(before[c].msgs)
    ensures SameWaiting(before, after)
  {
    forall m ensures WaitsAlike(before, after, m) {
      CountAllPointwise(before, after, RefersIn(m));
    }
  }

  /** An acknowledgement of an outgoing message removes no incoming one. */
  lemma OthersWait(before: seq<Context>, after: seq<Context>, c: nat, mid: nat)
    requires c < |before| == |after| && after == before[c := after[c]]
    requires Others(Keys(after[c].msgs), mid, Out) == Others(Keys(before[c].msgs), mid, Out)
    ensures SameWaiting(before, after)
  {
    forall m ensures WaitsAlike(before, after, m) {
      CountOthers(Keys(before[c].msgs), mid, Out, RefersIn(m));
      CountOthers(Keys(after[c].msgs), mid, Out, RefersIn(m));
      CountAllUpdate(before, c, after[c], RefersIn(m));
    }
  }

  /** Nor does sending QoS 0 messages. */
  lemma TrackedWait(before: seq<Context>, after: seq<Context>, c: nat)
    requires c < |before| == |after| && after == before[c := after[c]]
    requires IncomingOk(Keys(before[c].msgs)) && IncomingOk(Keys(after[c].msgs))
    requires Tracked(Keys(after[c].msgs)) == Tracked(Keys(before[c].msgs))
    ensures SameWaiting(before, after)
  {
    forall m ensures WaitsAlike(before, after, m) {
      CountTracked(Keys(before[c].msgs), RefersIn(m));
      CountTracked(Keys(after[c].msgs), RefersIn(m));
      CountAllUpdate(before, c, after[c], RefersIn(m));
    }
  }

  // ----- what each step does to the accounts -----

  lemma OnceKept(log: Log, before: seq<Context>, after: seq<Context>, next: nat, next': nat)
    requires Once(log, before, next) && SameWaiting(before, after) && next <= next'
    ensures Once(log, after, next')
  {
    forall m: nat ensures Accounted(log, after, next', m) {
      assert Accounted(log, before, next, m) && WaitsAlike(before, after, m);
    }
  }

  /** A new message is handed on at once. */
  lemma OnceFresh(log: Log, before: seq<Context>, after: seq<Context>, next: nat)
    requires Once(log, before, next) && SameWaiting(before, after)
    ensures Once(log.(routed := log.routed + multiset{next}), after, next + 1)
  {
    var log', next' := log.(routed := log.routed + multiset{next}), next + 1;
    forall m: nat ensures Accounted(log', after, next', m) {
      assert Accounted(log, before, next, m) && WaitsAlike(before, after, m);
    }
  }

  /** A message that waits is handed on because its packet id was reused. */
  lemma OnceReused(log: Log, before: seq<Context>, after: seq<Context>, next: nat, x: nat)
    requires Once(log, before, next) && SameWaiting(before, after) && Waiting(before, x) > 0
    ensures Once(log.(routed := log.routed + multiset{x}, reused := log.reused + multiset{x}), after, next)
  {
    var log' := log.(routed := log.routed + multiset{x}, reused := log.reused + multiset{x});
    forall m: nat ensures Accounted(log', after, next, m) {
      assert Accounted(log, before, next, m) && WaitsAlike(before, after, m);
    }
  }

  /** A new message is accepted into a session. */
  lemma OnceAccepted(log: Log, contexts: seq<Context>, next: nat, c: nat, e: Entry, s: Context)
    requires Once(log, contexts, next) && c < |contexts| && Appended(contexts[c], e, s)
    requires e.key.store == next && e.key.dir == In
    ensures Once(log.(accepted := log.accepted + {next}), contexts[c := s], next + 1)
  {
    var log' := log.(accepted := log.accepted + {next});
    var after, next' := contexts[c := s], next + 1;
    forall m: nat ensures Accounted(log', after, next', m) {
      assert Accounted(log, contexts, next, m);
      CountAllUpdate(contexts, c, s, RefersIn(m));
      KeysAppend(contexts[c].msgs, e);
      CountOneMore(Keys(contexts[c].msgs), e.key, RefersIn(m));
    }
  }

  /** An entry that waited is taken away and its message handed on, or given up. */
  lemma OnceReleased(log: Log, before: seq<Context>, after: seq<Context>, next: nat, c: nat, i: nat, s: Context,
                     discard: bool)
    requires Once(log, before, next) && SameWaiting(before, after) && c < |after| && i < |after[c].msgs|
             && after[c].msgs[i].key.dir == In
    requires Keys(s.msgs) == Removed(Keys(after[c].msgs), i)
    ensures var x := multiset{after[c].msgs[i].key.store};
            Once(if discard then log.(discarded := log.discarded + x) else log.(routed := log.routed + x),
                 after[c := s], next)
  {
    var x := after[c].msgs[i].key.store;
    var log' := if discard then log.(discarded := log.discarded + multiset{x})
        else log.(routed := log.routed + multiset{x});
    var after' := after[c := s];
    forall m: nat ensures Accounted(log', after', next, m) {
      assert Accounted(log, before, next, m) && WaitsAlike(before, after, m);
      CountAllUpdate(after, c, s, RefersIn(m));
      CountRemoved(Keys(after[c].msgs), i, RefersIn(m));
    }
  }

  /** The messages that wait in a queue. */
  ghost function InStores(keys: seq<Key>): seq<nat> {
    if keys == [] then [] else (if keys[0].dir == In then [keys[0].store] else []) + InStores(keys[1..])
  }

  lemma {:induction false} InStoresCount(keys: seq<Key>, m: nat)
    ensures multiset(InStores(keys))[m] == Count(keys, RefersIn(m))
  {
    if keys != [] {
      InStoresCount(keys[1..], m);
    }
  }

  /** A session ends, and what waited in it is given up. */
  lemma OnceEmptied(log: Log, contexts: seq<Context>, next: nat, c: nat, s: Context)
    requires Once(log, contexts, next) && c < |contexts| && s.msgs == []
    ensures Once(log.(discarded := log.discarded + multiset(InStores(Keys(contexts[c].msgs)))), contexts[c := s], next)
  {
    var log' := log.(discarded := log.discarded + multiset(InStores(Keys(contexts[c].msgs))));
    var after := contexts[c := s];
    forall m: nat ensures Accounted(log', after, next, m) {
      assert Accounted(log, contexts, next, m);
      CountAllUpdate(contexts, c, s, RefersIn(m));
      InStoresCount(Keys(contexts[c].msgs), m);
      CountAllContains(contexts, c, RefersIn(m));
    }
  }
}
