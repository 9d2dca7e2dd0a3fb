/** The values the message database of the broker works on: queue entries, sessions and stored messages. */
module Session {
  import opened Sequences
  import opened Wrappers
  import opened Topics
  import opened Tree

  datatype Direction = In | Out

  datatype State =
    | Invalid | PublishQos0 | PublishQos1 | WaitForPuback | PublishQos2 | WaitForPubrec
    | ResendPubrel | WaitForPubrel | ResendPubcomp | WaitForPubcomp | SendPubrec | Queued

  /** What stays the same about a queue entry for as long as it is queued. */
  datatype Key = Key(store: nat, mid: nat, qos: nat, retain: bool, dir: Direction)

  datatype Entry = Entry(key: Key, state: State, dup: bool, timestamp: int)

  /** A stored message; `dests` are the clients it has been queued for. */
  datatype Stored = Stored(refCount: int, sourceMid: nat, topic: Option<string>, qos: nat, retain: bool,
                           payloadlen: nat, dests: seq<nat>)

  /** A message that a client has left to be published when its connection breaks. */
  datatype Will = Will(topic: string, qos: nat, payloadlen: nat, retain: bool)

  /**
    What the broker knows of the client of a session: whether the session is there, under the client's id; whether the
    client is connected; and the clean-session flag and the will of its last CONNECT.
  */
  datatype Peer = Peer(named: bool, connected: bool, clean: bool, will: Option<Will>)

  /** A client session; `last` is where `last_msg` points. */
  datatype Context = Context(peer: Peer, msgs: seq<Entry>, last: Option<nat>, msgCount: int, msgCount12: int,
                             dropping: bool, lastMid: nat)

  datatype Limits = Limits(maxInflight: nat, maxQueued: nat, allowDuplicates: bool, queueQos0: bool, upgradeQos: bool)

  function Keys(msgs: seq<Entry>): seq<Key> {
    seq(|msgs|, i requires 0 <= i < |msgs| => msgs[i].key)
  }

  lemma KeysRemoved(msgs: seq<Entry>, i: nat)
    requires i < |msgs|
    ensures Keys(Removed(msgs, i)) == Removed(Keys(msgs), i)
  {
  }

  /** Number of entries that satisfy `p`. */
  function Count(keys: seq<Key>, p: Key -> bool): nat {
    if keys == [] then 0 else (if p(keys[0]) then 1 else 0) + Count(keys[1..], p)
  }

  lemma {:induction false} CountAppend(a: seq<Key>, b: seq<Key>, p: Key -> bool)
    ensures Count(a + b, p) == Count(a, p) + Count(b, p)
  {
    if a == [] {
      assert a + b == b;
    } else {
      assert (a + b)[1..] == a[1..] + b;
      CountAppend(a[1..], b, p);
    }
  }

  lemma CountOneMore(keys: seq<Key>, k: Key, p: Key -> bool)
    ensures Count(keys + [k], p) == Count(keys, p) + if p(k) then 1 else 0
  {
    CountAppend(keys, [k], p);
    assert [k][1..] == [];
  }

  lemma {:induction false} CountRemoved(keys: seq<Key>, i: nat, p: Key -> bool)
    requires i < |keys|
    ensures Count(keys, p) == Count(Removed(keys, i), p) + if p(keys[i]) then 1 else 0
  {
    if i > 0 {
      CountRemoved(keys[1..], i - 1, p);
      assert Removed(keys, i)[1..] == Removed(keys[1..], i - 1);
    } else {
      assert Removed(keys, 0) == keys[1..];
    }
  }

  lemma {:induction false} CountPositive(keys: seq<Key>, i: nat, p: Key -> bool)
    requires i < |keys| && p(keys[i])
    ensures Count(keys, p) > 0
  {
    if i > 0 { CountPositive(keys[1..], i - 1, p); }
  }

  lemma {:induction false} CountZero(keys: seq<Key>, p: Key -> bool)
    requires forall i | 0 <= i < |keys| :: !p(keys[i])
    ensures Count(keys, p) == 0
  {
    if keys != [] {
      assert forall i | 0 <= i < |keys| - 1 :: keys[1..][i] == keys[i + 1];
      CountZero(keys[1..], p);
    }
  }

  predicate Counted(k: Key) {
    k.qos > 0
  }

  function Count12(keys: seq<Key>): nat {
    Count(keys, Counted)
  }

  // ----- the incoming half of a queue -----

  /** Only QoS 2 messages wait in a session on their way in, at most one for each packet id. */
  predicate IncomingOk(keys: seq<Key>) {
    && (forall i | 0 <= i < |keys| && keys[i].dir == In :: keys[i].qos == 2)
    && (forall i, j | 0 <= i < j < |keys| && keys[i].dir == In && keys[j].dir == In :: keys[i].mid != keys[j].mid)
  }

  predicate Waits(keys: seq<Key>, mid: nat) {
    exists i :: 0 <= i < |keys| && keys[i].dir == In && keys[i].mid == mid
  }

  lemma IncomingRemoved(keys: seq<Key>, i: nat)
    requires IncomingOk(keys) && i < |keys|
    ensures IncomingOk(Removed(keys, i))
    ensures keys[i].dir == In ==> !Waits(Removed(keys, i), keys[i].mid)
    ensures forall mid | keys[i].dir == Out || mid != keys[i].mid :: Waits(Removed(keys, i), mid) <==> Waits(keys, mid)
  {
    var r := Removed(keys, i);
    assert forall k | 0 <= k < |r| :: r[k] == keys[if k < i then k else k + 1];
    forall mid | (keys[i].dir == Out || mid != keys[i].mid) && Waits(keys, mid) ensures Waits(r, mid) {
      var j :| 0 <= j < |keys| && keys[j].dir == In && keys[j].mid == mid;
      assert r[if j < i then j else j - 1] == keys[j];
    }
  }

  // ----- references to stored messages -----

  function Refers(m: nat): Key -> bool {
    (k: Key) => k.store == m
  }

  function RefersIn(m: nat): Key -> bool {
    (k: Key) => k.store == m && k.dir == In
  }

  /** The entries of all sessions together that satisfy `p`. */
  function CountAll(contexts: seq<Context>, p: Key -> bool): nat {
    if contexts == [] then 0 else Count(Keys(contexts[0].msgs), p) + CountAll(contexts[1..], p)
  }

  /** Replacing one session shifts the total by what that session gains and loses. */
  lemma {:induction false} CountAllUpdate(contexts: seq<Context>, c: nat, s: Context, p: Key -> bool)
    requires c < |contexts|
    ensures CountAll(contexts[c := s], p) + Count(Keys(contexts[c].msgs), p) == CountAll(contexts, p)
            + Count(Keys(s.msgs), p)
  {
    if c == 0 {
      assert contexts[c := s][1..] == contexts[1..];
    } else {
      assert contexts[c := s][1..] == contexts[1..][c - 1 := s];
      CountAllUpdate(contexts[1..], c - 1, s, p);
    }
  }

  lemma {:induction false} CountAllContains(contexts: seq<Context>, c: nat, p: Key -> bool)
    requires c < |contexts|
    ensures Count(Keys(contexts[c].msgs), p) <= CountAll(contexts, p)
  {
    if c > 0 { CountAllContains(contexts[1..], c - 1, p); }
  }

  // ----- one session -----

  /** The state in which an outgoing message is ready to be sent. */
  function Ready(k: Key): State {
    if k.qos == 0 then PublishQos0 else if k.qos == 1 then PublishQos1 else PublishQos2
  }

  predicate CountersOk(s: Context) {
    && s.msgCount == |s.msgs|
    && s.msgCount12 == Count12(Keys(s.msgs))
    && s.last == if s.msgs == [] then None else Some(|s.msgs| - 1)
  }

  predicate Bounded(s: Context, limits: Limits) {
    limits.maxInflight > 0 && limits.maxQueued > 0 ==> s.msgCount12 <= limits.maxInflight + limits.maxQueued
  }

  /**
    The states that an entry can be in, by its direction and QoS. An incoming entry can be in those of an outgoing QoS 2
    one, because a reconnect starts it without a look at its direction; and a PUBREC is taken for any outgoing entry.
  */
  predicate StateFits(e: Entry) {
    match e.state
    case PublishQos0 => e.key.dir == Out && e.key.qos == 0
    case PublishQos1 => e.key.dir == Out && e.key.qos == 1
    case WaitForPuback => e.key.dir == Out && e.key.qos == 1
    case PublishQos2 => e.key.qos >= 2
    case WaitForPubrec => e.key.qos >= 2
    case ResendPubrel => e.key.dir == Out
    case WaitForPubcomp => e.key.dir == Out
    case SendPubrec => e.key.dir == In
    case WaitForPubrel => e.key.dir == In
    case Queued => true
    case Invalid => false
    case ResendPubcomp => false
  }

  predicate StatesFit(msgs: seq<Entry>) {
    forall k | 0 <= k < |msgs| :: StateFits(msgs[k])
  }

  /**
    A connected client has a session. Its will can be published, and goes with the connection; so does a clean session.
  */
  predicate PeerOk(peer: Peer) {
    && (peer.connected ==> peer.named)
    && (peer.will.Some? ==> peer.connected && WillOk(peer.will))
    && (peer.named && !peer.connected ==> !peer.clean)
  }

  /** A session that outlives the connection, and is saved with the database. */
  predicate Persistent(peer: Peer) {
    peer.named && !peer.clean
  }

  predicate WillOk(will: Option<Will>) {
    will.Some? ==> ValidTopic(will.value.topic) && |will.value.topic| <= 65535 && will.value.qos <= 2
  }

  predicate SessionOk(s: Context, limits: Limits) {
    PeerOk(s.peer) && IncomingOk(Keys(s.msgs)) && StatesFit(s.msgs)
        && (s.peer.named ==> CountersOk(s) && Bounded(s, limits))
  }

  /** Only session `c` has changed. */
  predicate Only(c: nat, before: seq<Context>, after: seq<Context>) {
    c < |before| == |after| && after == before[c := after[c]]
  }

  lemma OnlyTwice(c: nat, s0: seq<Context>, s1: seq<Context>, s2: seq<Context>)
    ensures c < |s0| ==> Only(c, s0, s0)
    ensures Only(c, s0, s1) && Only(c, s1, s2) ==> Only(c, s0, s2)
    ensures Only(c, s0, s2) ==> c < |s2| == |s0|
  {
    assert c < |s0| ==> s0[c := s0[c]] == s0;
  }

  /** No session has begun or ended, and no client has come or gone. */
  predicate SamePeers(before: seq<Context>, after: seq<Context>) {
    |after| == |before| && forall c: nat | c < |before| :: after[c].peer == before[c].peer
  }

  // ----- reference counts -----

  type Store = map<nat, Stored>

  /** Messages have been stored; the others are as they were. */
  predicate Extends(store: Store, store': Store) {
    forall m | m in store :: m in store' && store'[m] == store[m]
  }

  ghost function RetCount(ret: map<Path, nat>, m: nat): nat {
    |set p | p in ret && ret[p] == m|
  }

  lemma RetCountSet(ret: map<Path, nat>, p: Path, m: nat, x: nat)
    ensures RetCount(ret[p := m], x) == RetCount(ret - {p}, x) + if x == m then 1 else 0
  {
    var less, more := ret - {p}, ret[p := m];
    var before, after := set q | q in less && less[q] == x, set q | q in more && more[q] == x;
    if x == m {
      assert after == before + {p};
    } else {
      assert after == before;
    }
  }

  lemma RetCountClear(ret: map<Path, nat>, p: Path, x: nat)
    ensures RetCount(ret, x) == RetCount(ret - {p}, x) + if p in ret && ret[p] == x then 1 else 0
  {
    if p in ret {
      RetCountSet(ret, p, ret[p], x);
      assert ret[p := ret[p]] == ret;
    } else {
      assert ret - {p} == ret;
    }
  }

  /** The references to one message: queue entries, retained nodes, and the guards of distributions under way. */
  ghost function References(contexts: seq<Context>, ret: map<Path, nat>, held: multiset<nat>, m: nat): nat {
    CountAll(contexts, Refers(m)) + RetCount(ret, m) + held[m]
  }

  /** A message counts its references, and a message that is gone has none. */
  ghost predicate CountedRight(store: Store, contexts: seq<Context>, ret: map<Path, nat>, held: multiset<nat>, m: nat) {
    if m in store then store[m].refCount == References(contexts, ret, held, m)
        else References(contexts, ret, held, m) == 0
  }

  ghost predicate AllCounted(store: Store, contexts: seq<Context>, ret: map<Path, nat>, held: multiset<nat>) {
    forall m {:trigger CountedRight(store, contexts, ret, held, m)} :: CountedRight(store, contexts, ret, held, m)
  }

  function Derefed(store: Store, m: nat): Store
    requires m in store
  {
    var n := store[m].refCount - 1;
    if n == 0 then store - {m} else store[m := store[m].(refCount := n)]
  }

  function Refed(store: Store, m: nat): Store
    requires m in store
  {
    store[m := store[m].(refCount := store[m].refCount + 1)]
  }

  lemma CountedAfterRemoval(store: Store, contexts: seq<Context>, ret: map<Path, nat>, held: multiset<nat>, c: nat,
                            i: nat, s: Context)
    requires AllCounted(store, contexts, ret, held) && c < |contexts| && i < |contexts[c].msgs|
    requires Keys(s.msgs) == Removed(Keys(contexts[c].msgs), i)
    ensures contexts[c].msgs[i].key.store in store
    ensures AllCounted(Derefed(store, contexts[c].msgs[i].key.store), contexts[c := s], ret, held)
  {
    var x := contexts[c].msgs[i].key.store;
    EntryStored(store, contexts, ret, held, c, i);
    var contexts' := contexts[c := s];
    forall m ensures CountedRight(Derefed(store, x), contexts', ret, held, m) {
      assert CountedRight(store, contexts, ret, held, m);
      CountAllUpdate(contexts, c, s, Refers(m));
      CountRemoved(Keys(contexts[c].msgs), i, Refers(m));
    }
  }

  /** No queue entry points at a message that has been freed. */
  lemma EntryStored(store: Store, contexts: seq<Context>, ret: map<Path, nat>, held: multiset<nat>, c: nat, i: nat)
    requires AllCounted(store, contexts, ret, held) && c < |contexts| && i < |contexts[c].msgs|
    ensures contexts[c].msgs[i].key.store in store
  {
    var m := contexts[c].msgs[i].key.store;
    assert CountedRight(store, contexts, ret, held, m);
    CountPositive(Keys(contexts[c].msgs), i, Refers(m));
    CountAllContains(contexts, c, Refers(m));
  }

  /** No retained node points at a message that has been freed. */
  lemma RetainedStored(store: Store, contexts: seq<Context>, ret: map<Path, nat>, held: multiset<nat>, p: Path)
    requires AllCounted(store, contexts, ret, held) && p in ret
    ensures ret[p] in store
  {
    assert CountedRight(store, contexts, ret, held, ret[p]);
    RetCountClear(ret, p, ret[p]);
  }

  lemma CountedAfterAppend(store: Store, contexts: seq<Context>, ret: map<Path, nat>, held: multiset<nat>, c: nat,
                           k: Key, s: Context)
    requires AllCounted(store, contexts, ret, held) && c < |contexts| && k.store in store
    requires Keys(s.msgs) == Keys(contexts[c].msgs) + [k]
    ensures AllCounted(Refed(store, k.store), contexts[c := s], ret, held)
  {
    var contexts' := contexts[c := s];
    forall m ensures CountedRight(Refed(store, k.store), contexts', ret, held, m) {
      assert CountedRight(store, contexts, ret, held, m);
      CountAllUpdate(contexts, c, s, Refers(m));
      CountOneMore(Keys(contexts[c].msgs), k, Refers(m));
    }
  }

  /** Nothing but the queue keys of a session matters to the counts. */
  lemma CountedSameKeys(store: Store, contexts: seq<Context>, ret: map<Path, nat>, held: multiset<nat>, c: nat,
                        s: Context)
    requires AllCounted(store, contexts, ret, held) && c < |contexts| && Keys(s.msgs) == Keys(contexts[c].msgs)
    ensures AllCounted(store, contexts[c := s], ret, held)
  {
    var contexts' := contexts[c := s];
    forall m ensures CountedRight(store, contexts', ret, held, m) {
      assert CountedRight(store, contexts, ret, held, m);
      CountAllUpdate(contexts, c, s, Refers(m));
    }
  }

  /** Taking and giving back a guard. */
  lemma CountedHeld(store: Store, contexts: seq<Context>, ret: map<Path, nat>, held: multiset<nat>, x: nat)
    requires AllCounted(store, contexts, ret, held)
    ensures x in store ==> AllCounted(Refed(store, x), contexts, ret, held + multiset{x})
    ensures x in held ==> x in store && AllCounted(Derefed(store, x), contexts, ret, held - multiset{x})
  {
    assert CountedRight(store, contexts, ret, held, x);
    if x in store {
      forall m ensures CountedRight(Refed(store, x), contexts, ret, held + multiset{x}, m) {
        assert CountedRight(store, contexts, ret, held, m);
      }
    }
    if x in held {
      forall m ensures CountedRight(Derefed(store, x), contexts, ret, held - multiset{x}, m) {
        assert CountedRight(store, contexts, ret, held, m);
      }
    }
  }

  /** A retained message replaced by another one, or by none. */
  lemma CountedRetained(store: Store, contexts: seq<Context>, ret: map<Path, nat>, held: multiset<nat>, p: Path,
                        message: Option<nat>)
    requires AllCounted(store, contexts, ret, held)
    requires message.Some? ==> message.value in held
    ensures p in ret ==> ret[p] in store
    ensures var store1 := if p in ret then Derefed(store, ret[p]) else store;
            && (message.Some? ==> message.value in store1)
            && AllCounted(if message.Some? then Refed(store1, message.value) else store1, contexts,
                          if message.Some? then ret[p := message.value] else ret - {p}, held)
  {
    if p in ret { RetainedStored(store, contexts, ret, held, p); }
    var store1 := if p in ret then Derefed(store, ret[p]) else store;
    assert AllCounted(store1, contexts, ret - {p}, held) by {
      forall m ensures CountedRight(store1, contexts, ret - {p}, held, m) {
        assert CountedRight(store, contexts, ret, held, m);
        RetCountClear(ret, p, m);
      }
    }
    if message.Some? {
      assert CountedRight(store1, contexts, ret - {p}, held, message.value);
      var store2, ret' := Refed(store1, message.value), ret[p := message.value];
      forall m ensures CountedRight(store2, contexts, ret', held, m) {
        assert CountedRight(store1, contexts, ret - {p}, held, m);
        RetCountSet(ret, p, message.value, m);
      }
    }
  }

  // ----- the database as a whole -----

  /** `msg_store` lists the stored messages once each, `msg_store_count` is its length, and ids are not used twice. */
  ghost predicate ListOk(store: Store, list: seq<nat>, count: int, next: nat) {
    && NoDups(list) && count == |list|
    && (forall m :: m in list <==> m in store)
    && (forall m | m in store :: m < next)
    && (forall m | m in store && store[m].topic.Some? :: ValidTopic(store[m].topic.value))
  }

  /** An incoming entry carries the packet id and the retain flag its message came with. */
  predicate InNamed(keys: seq<Key>, store: Store) {
    forall i | 0 <= i < |keys| && keys[i].dir == In && keys[i].store in store ::
      store[keys[i].store].sourceMid == keys[i].mid && store[keys[i].store].retain == keys[i].retain
  }

  ghost predicate Fine(limits: Limits, store: Store, contexts: seq<Context>, c: nat) {
    c < |contexts| ==> SessionOk(contexts[c], limits) && InNamed(Keys(contexts[c].msgs), store)
  }

  ghost predicate SessionsOk(limits: Limits, store: Store, contexts: seq<Context>) {
    forall c: nat {:trigger Fine(limits, store, contexts, c)} :: Fine(limits, store, contexts, c)
  }

  /** One session changes, and no message changes the packet id it came with. */
  lemma SessionReplaced(limits: Limits, store: Store, store': Store, contexts: seq<Context>, c: nat, s: Context)
    requires SessionsOk(limits, store, contexts) && c < |contexts| && SessionOk(s, limits)
             && InNamed(Keys(s.msgs), store)
    requires forall m | m in store' ::
               m in store && store'[m].sourceMid == store[m].sourceMid && store'[m].retain == store[m].retain
    ensures SessionsOk(limits, store', contexts[c := s])
  {
    var contexts' := contexts[c := s];
    forall d: nat ensures Fine(limits, store', contexts', d) {
      assert Fine(limits, store, contexts, d);
    }
  }

  ghost predicate DbOk(limits: Limits, store: Store, list: seq<nat>, count: int, next: nat, contexts: seq<Context>,
                       ret: map<Path, nat>, held: multiset<nat>) {
    && ListOk(store, list, count, next)
    && AllCounted(store, contexts, ret, held)
    && SessionsOk(limits, store, contexts)
  }

  /** `s'` is `s` with entry `i` unlinked and the counters adjusted. */
  ghost predicate Unlinked(s: Context, i: nat, s': Context) {
    && i < |s.msgs|
    && Keys(s'.msgs) == Removed(Keys(s.msgs), i) && (StatesFit(s.msgs) ==> StatesFit(s'.msgs))
    && s' == s.(msgs := s'.msgs, last := s'.last, msgCount := s.msgCount - 1,
                msgCount12 := s.msgCount12 - if s.msgs[i].key.qos > 0 then 1 else 0)
    && (CountersOk(s) ==> s'.last == if s'.msgs == [] then None else Some(|s'.msgs| - 1))
  }

  lemma SessionAfterRemoval(limits: Limits, store: Store, s: Context, i: nat, s': Context)
    requires Unlinked(s, i, s') && SessionOk(s, limits) && InNamed(Keys(s.msgs), store)
    ensures SessionOk(s', limits) && InNamed(Keys(s'.msgs), store)
  {
    var keys := Keys(s.msgs);
    IncomingRemoved(keys, i);
    CountRemoved(keys, i, Counted);
    assert |Keys(s'.msgs)| == |s'.msgs|;
    var r := Removed(keys, i);
    assert forall k | 0 <= k < |r| :: r[k] == keys[if k < i then k else k + 1];
  }

  lemma DbAfterRemoval(limits: Limits, store: Store, list: seq<nat>, count: int, list': seq<nat>, count': int,
                       next: nat, contexts: seq<Context>, ret: map<Path, nat>, held: multiset<nat>, c: nat, i: nat,
                       s: Context)
    requires DbOk(limits, store, list, count, next, contexts, ret, held) && c < |contexts|
             && Unlinked(contexts[c], i, s)
    ensures contexts[c].msgs[i].key.store in store
    ensures var store' := Derefed(store, contexts[c].msgs[i].key.store);
            ListOk(store', list', count', next) ==>
                  DbOk(limits, store', list', count', next, contexts[c := s], ret, held)
  {
    CountedAfterRemoval(store, contexts, ret, held, c, i, s);
    assert Fine(limits, store, contexts, c);
    SessionAfterRemoval(limits, store, contexts[c], i, s);
    SessionReplaced(limits, store, Derefed(store, contexts[c].msgs[i].key.store), contexts, c, s);
  }

  /** Whether there is a place among the messages in flight. */
  predicate HasPlace(s: Context, qos: nat, limits: Limits) {
    qos == 0 || limits.maxInflight == 0 || s.msgCount12 < limits.maxInflight
  }

  /** Whether a message is queued for a client rather than dropped. */
  predicate Accepts(s: Context, qos: nat, limits: Limits) {
    if s.peer.connected
    then HasPlace(s, qos, limits) || limits.maxQueued == 0 || s.msgCount12 - limits.maxInflight < limits.maxQueued
    else (qos > 0 || limits.queueQos0) && !(limits.maxQueued > 0 && s.msgCount12 >= limits.maxQueued)
  }

  /** `s'` is `s` with one entry more at the end. */
  ghost predicate Appended(s: Context, e: Entry, s': Context) {
    s' == s.(msgs := s.msgs + [e], last := Some(|s.msgs|), msgCount := s.msgCount + 1,
             msgCount12 := s.msgCount12 + if e.key.qos > 0 then 1 else 0)
  }

  lemma KeysAppend(msgs: seq<Entry>, e: Entry)
    ensures Keys(msgs + [e]) == Keys(msgs) + [e.key]
  {
  }

  lemma SessionAfterAppend(limits: Limits, store: Store, s: Context, e: Entry, s': Context)
    requires SessionOk(s, limits) && InNamed(Keys(s.msgs), store) && s.peer.named && Appended(s, e, s')
             && Accepts(s, e.key.qos, limits)
    requires e.key.dir == In ==> e.key.qos == 2 && !Waits(Keys(s.msgs), e.key.mid)
    requires StateFits(e)
    requires e.key.dir == In && e.key.store in store ==>
               store[e.key.store].sourceMid == e.key.mid && store[e.key.store].retain == e.key.retain
    ensures SessionOk(s', limits) && InNamed(Keys(s'.msgs), store)
  {
    KeysAppend(s.msgs, e);
    CountOneMore(Keys(s.msgs), e.key, Counted);
  }

  lemma DbAfterAppend(limits: Limits, store: Store, list: seq<nat>, count: int, next: nat, contexts: seq<Context>,
                      ret: map<Path, nat>, held: multiset<nat>, c: nat, e: Entry, s: Context)
    requires DbOk(limits, store, list, count, next, contexts, ret, held) && c < |contexts| && e.key.store in store
    requires contexts[c].peer.named && Appended(contexts[c], e, s) && Accepts(contexts[c], e.key.qos, limits)
    requires StateFits(e)
    requires e.key.dir == In ==> e.key.qos == 2 && !Waits(Keys(contexts[c].msgs), e.key.mid)
    requires e.key.dir == In ==> store[e.key.store].sourceMid == e.key.mid && store[e.key.store].retain == e.key.retain
    ensures DbOk(limits, Refed(store, e.key.store), list, count, next, contexts[c := s], ret, held)
  {
    KeysAppend(contexts[c].msgs, e);
    CountedAfterAppend(store, contexts, ret, held, c, e.key, s);
    assert Fine(limits, store, contexts, c);
    SessionAfterAppend(limits, store, contexts[c], e, s);
    SessionReplaced(limits, store, Refed(store, e.key.store), contexts, c, s);
  }

  /** The clients a message was queued for are nobody else's concern. */
  lemma DbDests(limits: Limits, store: Store, list: seq<nat>, count: int, next: nat, contexts: seq<Context>,
                ret: map<Path, nat>, held: multiset<nat>, m: nat, dests: seq<nat>)
    requires DbOk(limits, store, list, count, next, contexts, ret, held) && m in store
    ensures DbOk(limits, store[m := store[m].(dests := dests)], list, count, next, contexts, ret, held)
  {
    var store' := store[m := store[m].(dests := dests)];
    forall x ensures CountedRight(store', contexts, ret, held, x) {
      assert CountedRight(store, contexts, ret, held, x);
    }
    forall c: nat ensures Fine(limits, store', contexts, c) {
      assert Fine(limits, store, contexts, c);
    }
  }

  /** Nor are the states of queue entries. */
  lemma DbSameKeys(limits: Limits, store: Store, list: seq<nat>, count: int, next: nat, contexts: seq<Context>,
                   ret: map<Path, nat>, held: multiset<nat>, c: nat, s: Context)
    requires DbOk(limits, store, list, count, next, contexts, ret, held) && c < |contexts|
    requires Keys(s.msgs) == Keys(contexts[c].msgs) && (StatesFit(contexts[c].msgs) ==> StatesFit(s.msgs))
    requires s.peer == contexts[c].peer
    requires s.peer.named ==>
               s.msgCount == contexts[c].msgCount && s.msgCount12 == contexts[c].msgCount12
               && s.last == contexts[c].last
    ensures DbOk(limits, store, list, count, next, contexts[c := s], ret, held)
  {
    assert |Keys(s.msgs)| == |s.msgs| && |Keys(contexts[c].msgs)| == |contexts[c].msgs|;
    CountedSameKeys(store, contexts, ret, held, c, s);
    assert Fine(limits, store, contexts, c);
    SessionReplaced(limits, store, store, contexts, c, s);
  }

  // ----- acknowledgements -----

  predicate Answers(k: Key, mid: nat, dir: Direction) {
    k.mid == mid && k.dir == dir
  }

  /** The entries that an acknowledgement does not concern. */
  function Others(keys: seq<Key>, mid: nat, dir: Direction): seq<Key> {
    if keys == [] then []
    else (if Answers(keys[0], mid, dir) then [] else [keys[0]]) + Others(keys[1..], mid, dir)
  }

  /** Taking away some entries that an acknowledgement concerns leaves all the others counted as before. */
  lemma {:induction false} CountOthers(keys: seq<Key>, mid: nat, dir: Direction, p: Key -> bool)
    requires forall k | Answers(k, mid, dir) :: !p(k)
    ensures Count(Others(keys, mid, dir), p) == Count(keys, p)
  {
    if keys != [] {
      CountOthers(keys[1..], mid, dir, p);
      var rest := Others(keys[1..], mid, dir);
      assert ([keys[0]] + rest)[1..] == rest && [] + rest == rest;
    }
  }

  /** An entry that waits for a place, as the handlers of acknowledgements start it. */
  function Started(e: Entry, now: int): Entry {
    e.(state := if e.key.dir == Out then Ready(e.key) else if e.key.qos == 2 then WaitForPubrel else e.state,
       timestamp := now)
  }

  /** Every place in flight is taken by an entry that is under way. */
  predicate WindowStarted(msgs: seq<Entry>, places: int) {
    forall k | 0 <= k < |msgs| && k < places :: msgs[k].state != Queued
  }

  // ----- reconnecting and timeouts -----

  function ResetState(e: Entry): State {
    if e.key.dir == In || e.state == Queued then e.state
    else if e.key.qos == 0 then PublishQos0
    else if e.key.qos == 1 then PublishQos1
    else if e.state == WaitForPubcomp then ResendPubrel
    else PublishQos2
  }

  /** A whole queue after a reconnect; the second step does not look at the direction. */
  function ResetQueueState(e: Entry, k: nat, limits: Limits): State {
    var state := ResetState(e);
    if state == Queued && (limits.maxInflight == 0 || k < limits.maxInflight) then Ready(e.key) else state
  }

  lemma ResetFits(msgs: seq<Entry>, msgs': seq<Entry>, limits: Limits)
    requires |msgs'| == |msgs| && IncomingOk(Keys(msgs))
    requires forall k | 0 <= k < |msgs| :: msgs'[k] == msgs[k].(state := ResetQueueState(msgs[k], k, limits))
    ensures StatesFit(msgs) ==> StatesFit(msgs')
  {
    forall k | 0 <= k < |msgs| ensures StateFits(msgs[k]) ==> StateFits(msgs'[k]) {
      assert Keys(msgs)[k] == msgs[k].key;
    }
  }

  /** What happens to an entry that has waited since before `threshold`. */
  function TimedOut(e: Entry, threshold: int, now: int): Entry {
    if e.timestamp >= threshold then e
    else match e.state
      case WaitForPuback => e.(state := PublishQos1, timestamp := now, dup := true)
      case WaitForPubrec => e.(state := PublishQos2, timestamp := now, dup := true)
      case WaitForPubrel => e.(state := SendPubrec, timestamp := now, dup := true)
      case WaitForPubcomp => e.(state := ResendPubrel, timestamp := now, dup := true)
      case _ => e
  }

  /** All entries of a connected client that have waited too long are sent again. */
  predicate TimedOutSession(s: Context, s': Context, threshold: int, now: int) {
    if s.peer.connected then
      && s' == s.(msgs := s'.msgs) && Keys(s'.msgs) == Keys(s.msgs) && |s'.msgs| == |s.msgs|
      && forall k | 0 <= k < |s.msgs| :: s'.msgs[k] == TimedOut(s.msgs[k], threshold, now)
    else s' == s
  }

  lemma TimedOutFits(msgs: seq<Entry>, msgs': seq<Entry>, threshold: int, now: int)
    requires |msgs'| == |msgs| && forall k | 0 <= k < |msgs| :: msgs'[k] == TimedOut(msgs[k], threshold, now)
    ensures StatesFit(msgs) ==> StatesFit(msgs')
  {
  }

  // ----- distribution -----

  function MsgQos(clientQos: nat, qos: nat, limits: Limits): nat {
    if limits.upgradeQos then clientQos else if qos > clientQos then clientQos else qos
  }

  /** Whether an offer of a message makes a client's queue longer. */
  predicate Takes(s: Context, permitted: bool, clientQos: nat, qos: nat, limits: Limits) {
    s.peer.named && permitted && Accepts(s, MsgQos(clientQos, qos, limits), limits)
  }

  /** The queue is as it was. */
  predicate Untouched(s0: Context, s: Context) {
    && s == s0.(lastMid := s.lastMid, dropping := s.dropping) && (s0.dropping ==> s.dropping)
    && (s0.lastMid < 65536 ==> s.lastMid < 65536)
  }

  /** An outgoing entry that has just been queued: in its place, or for one. */
  predicate FreshCopy(e: Entry) {
    && e.key.dir == Out && !e.dup && StateFits(e) && (e.key.mid > 0 <==> e.key.qos > 0)
    && (e.state == PublishQos0 || e.state == PublishQos1 || e.state == PublishQos2 || e.state == Queued)
  }

  /** The queue is as it was, with one live copy of `m` at its end, which waits unless there is a place for it. */
  ghost predicate GotOne(s0: Context, s: Context, m: nat, qos: nat, limits: Limits) {
    && |s.msgs| == |s0.msgs| + 1 && s.msgs[..|s0.msgs|] == s0.msgs
    && (var e := s.msgs[|s0.msgs|];
        && e.key == Key(m, e.key.mid, qos, false, Out) && FreshCopy(e)
        && (e.state == Queued <==> !s0.peer.connected || !HasPlace(s0, qos, limits)))
    && s.peer == s0.peer
  }

  /** The queue is as it was, with a copy of the retained message `m` at its end. */
  ghost predicate GotRetained(s0: Context, s: Context, m: nat, qos: nat) {
    && |s.msgs| == |s0.msgs| + 1 && s.msgs[..|s0.msgs|] == s0.msgs
    && (var e := s.msgs[|s0.msgs|];
        e.key == Key(m, e.key.mid, qos, true, Out) && FreshCopy(e))
    && s.peer == s0.peer && (s0.dropping ==> s.dropping)
  }

  /** A connected client's queue was never full; `dropping` stays set. */
  predicate NothingDropped(s0: Context, s: Context) {
    s0.peer.named && s0.peer.connected && !s.dropping
  }

  /** The same for several nodes with retained messages, in their order. */
  ghost predicate GotAll(s0: Context, s: Context, nodes: Nodes, kept: seq<nat>, subQos: nat, store: Store) {
    && |s.msgs| == |s0.msgs| + |kept| && s.msgs[..|s0.msgs|] == s0.msgs
    && (forall k | 0 <= k < |kept| :: RetainedCopy(s.msgs[|s0.msgs| + k], nodes, kept[k], subQos, store))
    && s.peer == s0.peer && (s0.dropping ==> s.dropping)
  }

  /** A copy of the retained message of a node, with the lower one of two QoS. */
  ghost predicate RetainedCopy(e: Entry, nodes: Nodes, r: nat, subQos: nat, store: Store) {
    && r in nodes && nodes[r].retained == Some(e.key.store) && e.key.retain && FreshCopy(e)
    && e.key.store in store && e.key.qos == LowerQos(store[e.key.store].qos, subQos)
  }

  function LowerQos(qos: nat, subQos: nat): (r: nat)
    ensures r <= qos && r <= subQos && (r == qos || r == subQos)
  {
    if qos > subQos then subQos else qos
  }

  lemma GotOneMore(s0: Context, s1: Context, s2: Context, nodes: Nodes, kept: seq<nat>, r: nat, subQos: nat,
                   store: Store)
    requires GotAll(s0, s1, nodes, kept, subQos, store) && r in nodes && nodes[r].retained.Some?
             && nodes[r].retained.value in store
    ensures GotRetained(s1, s2, nodes[r].retained.value, LowerQos(store[nodes[r].retained.value].qos, subQos)) ==>
              GotAll(s0, s2, nodes, kept + [r], subQos, store)
    ensures Untouched(s1, s2) ==> GotAll(s0, s2, nodes, kept, subQos, store)
  {
    hide FreshCopy;
    if GotRetained(s1, s2, nodes[r].retained.value, LowerQos(store[nodes[r].retained.value].qos, subQos)) {
      assert forall k | 0 <= k < |s1.msgs| :: s2.msgs[k] == s2.msgs[..|s1.msgs|][k] == s1.msgs[k];
      assert s2.msgs[..|s0.msgs|] == s1.msgs[..|s0.msgs|];
      var more := kept + [r];
      forall k | 0 <= k < |more| ensures RetainedCopy(s2.msgs[|s0.msgs| + k], nodes, more[k], subQos, store) {
        if k < |kept| {
          assert RetainedCopy(s1.msgs[|s0.msgs| + k], nodes, kept[k], subQos, store);
        }
      }
    }
  }

  /** The entries that stay when QoS 0 messages have been sent. */
  function Tracked(keys: seq<Key>): seq<Key> {
    if keys == [] then [] else (if keys[0].qos > 0 then [keys[0]] else []) + Tracked(keys[1..])
  }

  lemma {:induction false} TrackedRemoved(keys: seq<Key>, i: nat)
    requires i < |keys| && keys[i].qos == 0
    ensures Tracked(Removed(keys, i)) == Tracked(keys)
  {
    if i > 0 {
      TrackedRemoved(keys[1..], i - 1);
      assert Removed(keys, i)[1..] == Removed(keys[1..], i - 1);
    } else {
      assert Removed(keys, 0) == keys[1..];
      assert [] + Tracked(keys[1..]) == Tracked(keys[1..]);
    }
  }

  lemma {:induction false} CountTracked(keys: seq<Key>, p: Key -> bool)
    requires forall i | 0 <= i < |keys| && p(keys[i]) :: keys[i].qos > 0
    ensures Count(Tracked(keys), p) == Count(keys, p)
  {
    if keys != [] {
      assert forall i | 0 <= i < |keys| - 1 :: keys[1..][i] == keys[i + 1];
      CountTracked(keys[1..], p);
      var rest := Tracked(keys[1..]);
      assert ([keys[0]] + rest)[1..] == rest && [] + rest == rest;
    }
  }

  /** The incoming entries of a session are the same ones. */
  ghost predicate SameIncoming(s0: Context, s: Context) {
    && s.peer == s0.peer
    && |s0.msgs| <= |s.msgs| && s.msgs[..|s0.msgs|] == s0.msgs
    && forall k | |s0.msgs| <= k < |s.msgs| :: FreshCopy(s.msgs[k])
  }

  ghost predicate StillIncoming(before: seq<Context>, after: seq<Context>, c: nat) {
    c < |before| && c < |after| ==> SameIncoming(before[c], after[c])
  }

  ghost predicate AllIncoming(before: seq<Context>, after: seq<Context>) {
    |after| == |before| && forall c: nat {:trigger StillIncoming(before, after, c)} :: StillIncoming(before, after, c)
  }

  lemma AllIncomingTrans(s0: seq<Context>, s1: seq<Context>, s2: seq<Context>)
    requires AllIncoming(s0, s1) && AllIncoming(s1, s2)
    ensures AllIncoming(s0, s2)
  {
    forall c: nat ensures StillIncoming(s0, s2, c) {
      assert StillIncoming(s0, s1, c) && StillIncoming(s1, s2, c);
    }
  }

  lemma IncomingPeers(before: seq<Context>, after: seq<Context>)
    requires AllIncoming(before, after)
    ensures SamePeers(before, after)
  {
    forall c: nat | c < |before| ensures after[c].peer == before[c].peer {
      assert StillIncoming(before, after, c);
    }
  }

  lemma NothingChanged(contexts: seq<Context>)
    ensures AllIncoming(contexts, contexts)
  {
    forall c: nat ensures StillIncoming(contexts, contexts, c) {
    }
  }
}
