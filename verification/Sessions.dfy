/** Clients come and go, subscribe and unsubscribe; and what happens over whole runs of the broker. */
module Sessions {
  import opened Sequences
  import opened Wrappers
  import opened Topics
  import opened Tree
  import opened Session
  import opened Phases
  import opened Accounts
  import opened Offers
  import opened Broker
  import opened Intake

  const NOBODY: Context := Context(Peer(false, false, true, None), [], None, 0, 0, false, 0)

  /** The session that a CONNECT starts. */
  function NewSession(clean: bool, will: Option<Will>): Context {
    NOBODY.(peer := Peer(true, true, clean, will))
  }

  /** The subscriptions of all clients but `c`. */
  function Without(abs: map<(nat, Path), nat>, c: nat): map<(nat, Path), nat> {
    map k | k in abs && k.0 != c :: abs[k]
  }

  /** Room for a client that has never connected. */
  method NewClient(db: Database) returns (c: nat)
    requires InOrder(db)
    modifies db`contexts, db.tree
    ensures InOrder(db) && c == |old(db.contexts)| && db.contexts == old(db.contexts) + [NOBODY]
    ensures db.tree.abs == old(db.tree.abs) && db.tree.ret == old(db.tree.ret) && db.tree.at == old(db.tree.at)
    ensures db.tree.subsOf == old(db.tree.subsOf)[c := []]
  {
    hide Sound, DbOk, Once, Alike, RetainedAs;
    c := |db.contexts|;
    DbNewClient(db);
    OnceNewClient(db.log, db.contexts, db.nextStore);
    db.tree.AddClient(c);
    db.contexts := db.contexts + [NOBODY];
  }

  lemma {:induction false} CountAllAppend(contexts: seq<Context>, s: Context, p: Key -> bool)
    requires s.msgs == []
    ensures CountAll(contexts + [s], p) == CountAll(contexts, p)
  {
    if contexts == [] {
      assert [s][1..] == [];
    } else {
      assert (contexts + [s])[1..] == contexts[1..] + [s];
      CountAllAppend(contexts[1..], s, p);
    }
  }

  lemma DbNewClient(db: Database)
    requires db.Valid()
    ensures DbOk(db.limits, db.store, db.storeList, db.storeCount, db.nextStore, db.contexts + [NOBODY],
                 db.tree.ret, db.held)
  {
    hide Sound;
    var contexts := db.contexts + [NOBODY];
    forall m ensures CountedRight(db.store, contexts, db.tree.ret, db.held, m) {
      assert CountedRight(db.store, db.contexts, db.tree.ret, db.held, m);
      CountAllAppend(db.contexts, NOBODY, Refers(m));
    }
    forall c: nat ensures Fine(db.limits, db.store, contexts, c) {
      assert Fine(db.limits, db.store, db.contexts, c);
    }
  }

  lemma OnceNewClient(log: Log, contexts: seq<Context>, next: nat)
    requires Once(log, contexts, next)
    ensures Once(log, contexts + [NOBODY], next)
  {
    var contexts' := contexts + [NOBODY];
    forall m: nat ensures Accounted(log, contexts', next, m) {
      assert Accounted(log, contexts, next, m);
      CountAllAppend(contexts, NOBODY, RefersIn(m));
    }
  }

  /** The end of a session: its subscriptions go, and its queue, with the messages that waited there. */
  method EndSession(db: Database, c: nat)
    requires InOrder(db) && c < |db.contexts|
    modifies db`store, db`storeList, db`storeCount, db`contexts, db`log, db.tree
    ensures InOrder(db) && db.tree.ret == old(db.tree.ret)
    ensures db.contexts ==
              old(db.contexts)[c := old(db.contexts)[c].(msgs := [], last := None, msgCount := 0, msgCount12 := 0)]
    ensures db.tree.abs == Without(old(db.tree.abs), c)
    ensures c in old(db.tree.subsOf) && (old(db.tree.subsOf)[c] == [] ==> db.tree.at == old(db.tree.at))
    ensures db.log == old(db.log).(discarded := old(db.log).discarded
                                   + multiset(InStores(Keys(old(db.contexts)[c].msgs))))
  {
    hide Sound, DbOk, Once;
    OnceEmptied(db.log, db.contexts, db.nextStore, c,
                db.contexts[c].(msgs := [], last := None, msgCount := 0, msgCount12 := 0));
    db.tree.CleanSession(c);
    ghost var log := db.log.(discarded := db.log.discarded + multiset(InStores(Keys(db.contexts[c].msgs))));
    db.MessagesDelete(c);
    Note(db, log);
  }

  /** A session goes over to a new connection only if neither the old nor the new one is a clean session. */
  predicate TakesOver(peer: Peer, clean: bool) {
    Persistent(peer) && !clean
  }

  /**
    A CONNECT of client `c`. If neither its session nor the new one is a clean one, the new connection takes the
    subscriptions and the queue over, in order and complete; otherwise it starts afresh. If the client is still
    connected then, the old connection goes without its will. A CONNECT with a will that cannot be published is refused.
  */
  method Connect(db: Database, c: nat, clean: bool, will: Option<Will>) returns (rc: nat)
    requires InOrder(db) && c < |db.contexts|
    modifies db`store, db`storeList, db`storeCount, db`contexts, db`log, db.tree
    ensures InOrder(db) && db.tree.ret == old(db.tree.ret) && Only(c, old(db.contexts), db.contexts)
    ensures rc == if WillOk(will) then 0 else 1
    ensures rc != 0 ==>
              db.contexts == old(db.contexts) && db.tree.abs == old(db.tree.abs) && db.log == old(db.log)
    ensures rc == 0 ==>
              var s, s' := old(db.contexts)[c], db.contexts[c];
              && s'.peer == Peer(true, true, clean, will)
              && if TakesOver(s.peer, clean) then
                   && db.log == old(db.log) && db.tree.abs == old(db.tree.abs)
                   && db.tree.subsOf == old(db.tree.subsOf)
                   && Keys(s'.msgs) == Keys(s.msgs) && |s'.msgs| == |s.msgs| && s'.lastMid == s.lastMid && !s'.dropping
                   && forall k | 0 <= k < |s.msgs| ::
                        s'.msgs[k] == s.msgs[k].(state := ResetQueueState(s.msgs[k], k, db.limits))
                 else
                   && s' == NewSession(clean, will) && db.tree.abs == Without(old(db.tree.abs), c)
                   && c in old(db.tree.subsOf) && (old(db.tree.subsOf)[c] == [] ==> db.tree.at == old(db.tree.at))
                   && db.log == old(db.log).(discarded := old(db.log).discarded + multiset(InStores(Keys(s.msgs))))
    ensures rc == 0 ==>
              var peer := old(db.contexts)[c].peer;
              Follows(old(db.contexts)[c].msgs, db.contexts[c].msgs,
                      if peer.named && !peer.clean && !clean then Resumed else Ended)
  {
    hide Sound, DbOk, Once, IncomingOk, WillOk, Follows;
    assert db.contexts[c := db.contexts[c]] == db.contexts;
    if !WillOk(will) {
      return 1;
    }
    var s := db.contexts[c];
    if TakesOver(s.peer, clean) {
      TakeOver(db, c, will);
    } else {
      EndSession(db, c);
      FollowsEnded(s.msgs);
      Replace(db, c, NewSession(clean, will));
    }
    return 0;
  }

  method TakeOver(db: Database, c: nat, will: Option<Will>)
    requires InOrder(db) && c < |db.contexts| && db.contexts[c].peer.named && WillOk(will)
    modifies db`contexts
    ensures InOrder(db) && Only(c, old(db.contexts), db.contexts)
    ensures var s, s' := old(db.contexts)[c], db.contexts[c];
            && s'.peer == Peer(true, true, false, will) && !s'.dropping && s'.lastMid == s.lastMid
            && Keys(s'.msgs) == Keys(s.msgs) && |s'.msgs| == |s.msgs|
            && forall k | 0 <= k < |s.msgs| ::
                 s'.msgs[k] == s.msgs[k].(state := ResetQueueState(s.msgs[k], k, db.limits))
    ensures Follows(old(db.contexts)[c].msgs, db.contexts[c].msgs, Resumed)
  {
    hide Sound, Once, WillOk, Follows;
    var s := db.contexts[c];
    var s' := NewSession(false, will).(lastMid := s.lastMid);
    assert Fine(db.limits, db.store, db.contexts, c);
    if s.msgs != [] {
      var msgs, msgCount, msgCount12, last := db.ResetQueue(s.msgs);
      ResetFits(s.msgs, msgs, db.limits);
      ResetAgain(s.msgs, msgs, db.limits);
      s' := s'.(msgs := msgs, msgCount := msgCount, msgCount12 := msgCount12, last := last);
    }
    FollowsEach(s.msgs, s'.msgs, Resumed);
    Replace(db, c, s');
  }

  lemma ResetAgain(msgs: seq<Entry>, msgs': seq<Entry>, limits: Limits)
    requires |msgs'| == |msgs| && IncomingOk(Keys(msgs)) && StatesFit(msgs)
    requires forall k | 0 <= k < |msgs| :: msgs'[k] == msgs[k].(state := ResetQueueState(msgs[k], k, limits))
    ensures forall k | 0 <= k < |msgs| :: Onward(msgs[k], msgs'[k], Resumed)
  {
    forall k | 0 <= k < |msgs| ensures Onward(msgs[k], msgs'[k], Resumed) {
      assert Keys(msgs)[k] == msgs[k].key && StateFits(msgs[k]);
    }
  }

  /** Another state of a session with the same queue. */
  method Replace(db: Database, c: nat, s: Context)
    requires InOrder(db) && c < |db.contexts| && Keys(s.msgs) == Keys(db.contexts[c].msgs)
    requires StatesFit(db.contexts[c].msgs) ==> StatesFit(s.msgs)
    requires PeerOk(s.peer) && (s.peer.named ==> (db.contexts[c].peer.named || s.msgs == []) && CountersOk(s))
    modifies db`contexts
    ensures InOrder(db) && db.contexts == old(db.contexts)[c := s]
  {
    hide Sound, Once;
    SessionMended(db.limits, db.store, db.storeList, db.storeCount, db.nextStore, db.contexts, db.tree.ret, db.held, c,
                  s);
    KeysWait(db.contexts, db.contexts[c := s]);
    OnceKept(db.log, db.contexts, db.contexts[c := s], db.nextStore, db.nextStore);
    db.contexts := db.contexts[c := s];
  }

  lemma SessionMended(limits: Limits, store: Store, list: seq<nat>, count: int, next: nat, contexts: seq<Context>,
                      ret: map<Path, nat>, held: multiset<nat>, c: nat, s: Context)
    requires DbOk(limits, store, list, count, next, contexts, ret, held) && c < |contexts|
             && Keys(s.msgs) == Keys(contexts[c].msgs)
    requires StatesFit(contexts[c].msgs) ==> StatesFit(s.msgs)
    requires PeerOk(s.peer) && (s.peer.named ==> (contexts[c].peer.named || s.msgs == []) && CountersOk(s))
    ensures DbOk(limits, store, list, count, next, contexts[c := s], ret, held)
  {
    CountedSameKeys(store, contexts, ret, held, c, s);
    assert Fine(limits, store, contexts, c);
    assert |Keys(s.msgs)| == |s.msgs| && |Keys(contexts[c].msgs)| == |contexts[c].msgs|;
    SessionReplaced(limits, store, store, contexts, c, s);
  }

  /** `mqtt3_db_messages_easy_queue`: a message of the broker's own is stored and handed on. */
  method EasyQueue(db: Database, will: Will, now: int)
    requires InOrder(db) && ValidTopic(will.topic)
    modifies db`store, db`storeList, db`storeCount, db`nextStore, db`born, db`contexts, db`held, db`log, db.tree
    ensures InOrder(db) && AllIncoming(old(db.contexts), db.contexts) && db.held == old(db.held)
    ensures old(db.nextStore) !in old(db.born)
    ensures db.born ==
              old(db.born)[old(db.nextStore) := Born(0, Some(will.topic), will.qos, will.payloadlen, will.retain)]
    ensures db.log == old(db.log).(routed := old(db.log).routed + multiset{old(db.nextStore)})
    ensures Distributed(db, old(db.nextStore), will.topic, will.qos, db.tree.abs, [], old(db.contexts), db.contexts)
    ensures AllRight(Mail(db.limits, db.mayRead, old(db.nextStore), will.topic, will.qos), db.tree.abs, [],
                     old(db.contexts), db.contexts)
    ensures db.tree.abs == old(db.tree.abs) && db.tree.subsOf == old(db.tree.subsOf)
    ensures db.tree.ret == RetainedIf(old(db.tree.ret), old(db.tree.at), will.topic, will.retain, old(db.nextStore),
                                      will.payloadlen)
  {
    RouteNew(db, 0, will.topic, will.qos, will.payloadlen, will.retain, now);
  }

  /** Whether the end of a connection publishes the will: not after a DISCONNECT, and not without the permission to. */
  predicate Wills(peer: Peer, asked: bool, permitted: bool) {
    peer.connected && !asked && peer.will.Some? && permitted
  }

  /** A client whose connection is gone. */
  function Gone(peer: Peer): Peer {
    if !peer.connected then peer else if peer.clean then NOBODY.peer else Peer(peer.named, false, false, None)
  }

  /**
    The connection of client `c` ends, after a DISCONNECT (`asked`) or without one: its will is published if there is
    one, while the client still counts as connected, and is gone in any case. A clean session goes with the connection.
    For a client that is not connected nothing happens.
  */
  method Disconnect(db: Database, c: nat, asked: bool, permitted: bool, now: int) returns (ghost mid: seq<Context>)
    requires InOrder(db) && c < |db.contexts|
    modifies db`store, db`storeList, db`storeCount, db`nextStore, db`born, db`contexts, db`held, db`log, db.tree
    ensures InOrder(db) && Only(c, mid, db.contexts) && db.held == old(db.held)
    ensures AllIncoming(old(db.contexts), mid)
    ensures if Wills(old(db.contexts)[c].peer, asked, permitted) then
              var m, w := old(db.nextStore), old(db.contexts)[c].peer.will.value;
              && m !in old(db.born) && ValidTopic(w.topic)
              && Distributed(db, m, w.topic, w.qos, old(db.tree.abs), [], old(db.contexts), mid)
              && AllRight(Mail(db.limits, db.mayRead, m, w.topic, w.qos), old(db.tree.abs), [], old(db.contexts), mid)
              && db.born == old(db.born)[m := Born(0, Some(w.topic), w.qos, w.payloadlen, w.retain)]
              && db.tree.ret == RetainedIf(old(db.tree.ret), old(db.tree.at), w.topic, w.retain, m, w.payloadlen)
              && db.log.routed == old(db.log).routed + multiset{m}
            else
              mid == old(db.contexts) && db.born == old(db.born) && db.tree.ret == old(db.tree.ret)
                  && db.log.routed == old(db.log).routed
    ensures db.log == old(db.log).(routed := db.log.routed, discarded := db.log.discarded)
    ensures db.contexts[c].peer == Gone(old(db.contexts)[c].peer)
    ensures var peer := old(db.contexts)[c].peer;
            if peer.connected && peer.clean then
              && db.contexts[c] == NOBODY && db.tree.abs == Without(old(db.tree.abs), c)
              && db.log.discarded == old(db.log).discarded + multiset(InStores(Keys(mid[c].msgs)))
            else
              && db.contexts[c] == mid[c].(peer := Gone(peer)) && db.log.discarded == old(db.log).discarded
              && db.tree.abs == old(db.tree.abs)
    ensures var peer := old(db.contexts)[c].peer;
            AllFollow(old(db.contexts), db.contexts, c, if peer.connected && peer.clean then Ended else Nothing)
  {
    hide Sound, DbOk, Alike, Once, IncomingOk, RetainedAs, AllIncoming, Distributed, RetainedIf, Without, InStores,
         Keys, AllProper, AllFollow, AllRight;
    NothingChanged(db.contexts);
    AllFollowSame(db.contexts, c, Nothing);
    PeerFacts(db, c);
    assert db.contexts[c := db.contexts[c]] == db.contexts;
    mid := db.contexts;
    var peer := db.contexts[c].peer;
    if !peer.connected {
      return;
    }
    if !asked && peer.will.Some? {
      if permitted {
        EasyQueue(db, peer.will.value, now);
      }
    }
    mid := db.contexts;
    SamePeer(old(db.contexts), mid, c);
    if peer.clean {
      EndSession(db, c);
      Replace(db, c, NOBODY);
    } else {
      NamedCounters(db, c);
      Replace(db, c, db.contexts[c].(peer := Gone(peer)));
    }
    GoneFollow(old(db.contexts), mid, db.contexts, c, peer.clean);
  }

  lemma GoneFollow(before: seq<Context>, mid: seq<Context>, after: seq<Context>, c: nat, ends: bool)
    requires AllIncoming(before, mid) && Only(c, mid, after) && after[c].msgs == if ends then [] else mid[c].msgs
    ensures AllFollow(before, after, c, if ends then Ended else Nothing)
  {
    hide Follows;
    AllFollowIncoming(before, mid, c, Nothing);
    var cause := if ends then Ended else Nothing;
    forall d: nat ensures FollowsAt(before, after, c, cause, d) {
      assert FollowsAt(before, mid, c, Nothing, d);
      if d < |before| { FollowsEnded(before[d].msgs); }
    }
  }

  lemma PeerFacts(db: Database, c: nat)
    requires db.Valid() && c < |db.contexts|
    ensures PeerOk(db.contexts[c].peer)
  {
    assert Fine(db.limits, db.store, db.contexts, c);
  }

  lemma SamePeer(before: seq<Context>, after: seq<Context>, c: nat)
    requires AllIncoming(before, after) && c < |before|
    ensures after[c].peer == before[c].peer
  {
    assert StillIncoming(before, after, c);
  }

  // ----- messages that a client may no longer read -----

  /** Whether an entry stays in the queue of a client that connects again, perhaps under another user name. */
  predicate Stays(e: Entry, store: Store, mayRead: string -> bool) {
    e.key.dir == In
        || (e.key.store in store && store[e.key.store].topic.Some? && mayRead(store[e.key.store].topic.value))
  }

  function Staying(msgs: seq<Entry>, store: Store, mayRead: string -> bool): seq<Entry> {
    if msgs == [] then []
    else Staying(msgs[..|msgs| - 1], store, mayRead)
         + if Stays(msgs[|msgs| - 1], store, mayRead) then [msgs[|msgs| - 1]] else []
  }

  /** The messages of the entries that go. */
  function Going(msgs: seq<Entry>, store: Store, mayRead: string -> bool): seq<nat> {
    if msgs == [] then []
    else Going(msgs[..|msgs| - 1], store, mayRead)
         + if Stays(msgs[|msgs| - 1], store, mayRead) then [] else [msgs[|msgs| - 1].key.store]
  }

  /**
    The loop over the queue at the end of a CONNECT. The entries that the client may not read go, each with its
    reference, but the counters stay, and so does the tail unless the queue is empty up to it: `last` points past the
    end then, to an entry that is gone.
  */
  method PurgeDenied(s: Context, store: Store, mayRead: string -> bool) returns (s': Context, derefs: seq<nat>)
    ensures s'.msgs == Staying(s.msgs, store, mayRead) && derefs == Going(s.msgs, store, mayRead)
    ensures s' == s.(msgs := s'.msgs, last := s'.last)
    ensures forall e :: e in s'.msgs <==> e in s.msgs && (e.key.dir == Out ==> Readable(e, store, mayRead))
    ensures CountersOk(s) ==> (CountersOk(s') <==> forall k | 0 <= k < |s.msgs| :: Stays(s.msgs[k], store, mayRead))
    ensures CountersOk(s) && s.msgs != [] && !Stays(s.msgs[|s.msgs| - 1], store, mayRead) && s'.msgs != [] ==>
              s'.last == Some(|s'.msgs|)
  {
    StayingReadable(s.msgs, store, mayRead);
    hide Stays, CountersOk, PurgedUpTo, TailUpTo, Readable;
    var msgs, i := s.msgs, 0;
    var last: Option<nat> := s.last;
    derefs := [];
    ghost var n := 0;
    NonePurged(s, store, mayRead);
    while i < |msgs|
      invariant i <= |msgs| && PurgedUpTo(s, store, mayRead, n, msgs, i, derefs)
                && TailUpTo(s, store, mayRead, n, |msgs|, i, last)
      decreases |msgs| - i
    {
      var e := msgs[i];
      OneMorePurged(s, store, mayRead, n, msgs, i, derefs);
      TailMoves(s, store, mayRead, n, |msgs|, i, last);
      if Stays(e, store, mayRead) {
        i := i + 1;
      } else {
        derefs := derefs + [e.key.store];
        if i == 0 && last == Some(0) {
          last := None;
        } else if last.Some? && last.value > i {
          last := Some(last.value - 1);
        }
        msgs := Removed(msgs, i);
      }
      n := n + 1;
    }
    s' := s.(msgs := msgs, last := last);
    AllPurged(s, store, mayRead, n, s', i, derefs);
  }

  /**
    The first `n` entries of the session have been looked at: `msgs[..i]` are those that stay, and `derefs` the messages
    of the others.
  */
  ghost predicate PurgedUpTo(s: Context, store: Store, mayRead: string -> bool, n: nat, msgs: seq<Entry>, i: nat,
                             derefs: seq<nat>) {
    && n <= |s.msgs| && i <= |msgs| && msgs[..i] == Staying(s.msgs[..n], store, mayRead) && msgs[i..] == s.msgs[n..]
    && derefs == Going(s.msgs[..n], store, mayRead) && i + |derefs| == n
    && (derefs == [] <==> forall k | 0 <= k < n :: Stays(s.msgs[k], store, mayRead))
  }

  /** Where `last` points then, among `count` entries, if it was right in the beginning. */
  ghost predicate TailUpTo(s: Context, store: Store, mayRead: string -> bool, n: nat, count: nat, i: nat,
                           last: Option<nat>) {
    n <= |s.msgs| && i <= count && i <= n && count - i == |s.msgs| - n &&
    (s.last == (if s.msgs == [] then None else Some(|s.msgs| - 1)) ==>
       last == if n < |s.msgs| then Some(count - 1)
               else if i == 0 then None
               else if Stays(s.msgs[n - 1], store, mayRead) then Some(i - 1) else Some(i))
  }

  /** The client may read the topic of a message. */
  predicate Readable(e: Entry, store: Store, mayRead: string -> bool) {
    e.key.store in store && store[e.key.store].topic.Some? && mayRead(store[e.key.store].topic.value)
  }

  /** Just the outgoing messages that the client may not read are taken away. */
  lemma {:induction false} StayingReadable(msgs: seq<Entry>, store: Store, mayRead: string -> bool)
    ensures forall e ::
              e in Staying(msgs, store, mayRead) <==> e in msgs && (e.key.dir == Out ==> Readable(e, store, mayRead))
  {
    if msgs != [] {
      var n := |msgs| - 1;
      StayingReadable(msgs[..n], store, mayRead);
      assert msgs == msgs[..n] + [msgs[n]];
    }
  }

  lemma NonePurged(s: Context, store: Store, mayRead: string -> bool)
    ensures PurgedUpTo(s, store, mayRead, 0, s.msgs, 0, []) && TailUpTo(s, store, mayRead, 0, |s.msgs|, 0, s.last)
  {
  }

  lemma OneMorePurged(s: Context, store: Store, mayRead: string -> bool, n: nat, msgs: seq<Entry>, i: nat,
                      derefs: seq<nat>)
    requires PurgedUpTo(s, store, mayRead, n, msgs, i, derefs) && i < |msgs|
    ensures n < |s.msgs| && msgs[i] == s.msgs[n]
    ensures if Stays(msgs[i], store, mayRead) then PurgedUpTo(s, store, mayRead, n + 1, msgs, i + 1, derefs)
            else PurgedUpTo(s, store, mayRead, n + 1, Removed(msgs, i), i, derefs + [msgs[i].key.store])
  {
    hide Stays, Staying, Going, Removed;
    assert |msgs[i..]| == |s.msgs[n..]| && msgs[i] == msgs[i..][0] == s.msgs[n];
    StayingMore(s.msgs, n, store, mayRead);
    assert msgs[i..][1..] == s.msgs[n..][1..] == s.msgs[n + 1..];
    if Stays(msgs[i], store, mayRead) {
      assert msgs[..i + 1] == msgs[..i] + [msgs[i]] && msgs[i + 1..] == msgs[i..][1..];
    } else {
      AroundRemoved(msgs, i);
    }
  }

  lemma StayingMore(msgs: seq<Entry>, n: nat, store: Store, mayRead: string -> bool)
    requires n < |msgs|
    ensures Staying(msgs[..n + 1], store, mayRead) == Staying(msgs[..n], store, mayRead)
            + if Stays(msgs[n], store, mayRead) then [msgs[n]] else []
    ensures Going(msgs[..n + 1], store, mayRead) == Going(msgs[..n], store, mayRead) + if Stays(msgs[n], store, mayRead)
            then [] else [msgs[n].key.store]
    ensures Stays(msgs[n], store, mayRead) ==> Going(msgs[..n + 1], store, mayRead) == Going(msgs[..n], store, mayRead)
    ensures !Stays(msgs[n], store, mayRead) ==>
              Staying(msgs[..n + 1], store, mayRead) == Staying(msgs[..n], store, mayRead)
  {
    hide Stays;
    assert msgs[..n + 1][..n] == msgs[..n];
    assert Going(msgs[..n], store, mayRead) + [] == Going(msgs[..n], store, mayRead);
    assert Staying(msgs[..n], store, mayRead) + [] == Staying(msgs[..n], store, mayRead);
  }

  lemma AroundRemoved(msgs: seq<Entry>, i: nat)
    requires i < |msgs|
    ensures i <= |Removed(msgs, i)| && Removed(msgs, i)[..i] == msgs[..i] && Removed(msgs, i)[i..] == msgs[i..][1..]
  {
  }

  lemma TailMoves(s: Context, store: Store, mayRead: string -> bool, n: nat, count: nat, i: nat, last: Option<nat>)
    requires TailUpTo(s, store, mayRead, n, count, i, last) && i < count && n < |s.msgs|
    ensures if Stays(s.msgs[n], store, mayRead) then TailUpTo(s, store, mayRead, n + 1, count, i + 1, last)
            else TailUpTo(s, store, mayRead, n + 1, count - 1, i,
                          if i == 0 && last == Some(0) then None else if last.Some? && last.value > i
                              then Some(last.value - 1) else last)
  {
    hide Stays;
  }

  lemma AllPurged(s: Context, store: Store, mayRead: string -> bool, n: nat, s': Context, i: nat, derefs: seq<nat>)
    requires PurgedUpTo(s, store, mayRead, n, s'.msgs, i, derefs)
             && TailUpTo(s, store, mayRead, n, |s'.msgs|, i, s'.last)
    requires i == |s'.msgs| && s' == s.(msgs := s'.msgs, last := s'.last)
    ensures s'.msgs == Staying(s.msgs, store, mayRead) && derefs == Going(s.msgs, store, mayRead)
    ensures CountersOk(s) ==> (CountersOk(s') <==> forall k | 0 <= k < |s.msgs| :: Stays(s.msgs[k], store, mayRead))
    ensures CountersOk(s) && s.msgs != [] && !Stays(s.msgs[|s.msgs| - 1], store, mayRead) && s'.msgs != [] ==>
              s'.last == Some(|s'.msgs|)
  {
    hide Stays;
    assert s'.msgs[i..] == [] && s.msgs[..n] == s.msgs && s'.msgs[..i] == s'.msgs;
    if derefs == [] {
      AllStay(s.msgs, store, mayRead);
    }
  }

  lemma {:induction false} AllStay(msgs: seq<Entry>, store: Store, mayRead: string -> bool)
    requires forall k | 0 <= k < |msgs| :: Stays(msgs[k], store, mayRead)
    ensures Staying(msgs, store, mayRead) == msgs
  {
    if msgs != [] { AllStay(msgs[..|msgs| - 1], store, mayRead); }
  }

  lemma NamedCounters(db: Database, c: nat)
    requires db.Valid() && c < |db.contexts|
    ensures db.contexts[c].peer.named ==> CountersOk(db.contexts[c])
  {
    assert Fine(db.limits, db.store, db.contexts, c);
  }

  /** Whether a filter with a QoS is subscribed to; another one ends the connection. */
  predicate Grantable(filter: string, qos: nat) {
    ValidFilter(filter) && |filter| <= 65535 && qos <= 2
  }

  /** One filter of a SUBSCRIBE. In version 3.1 retained messages are not sent again. */
  method AddSubscription(db: Database, c: nat, filter: string, qos: nat, mqtt31: bool, now: int)
      returns (ok: bool, ghost kept: seq<nat>)
    requires InOrder(db) && c < |db.contexts|
    modifies db`store, db`contexts, db.tree
    ensures InOrder(db) && Only(c, old(db.contexts), db.contexts) && db.tree.ret == old(db.tree.ret)
    ensures ok <==> Grantable(filter, qos)
    ensures !ok ==> db.tree.abs == old(db.tree.abs) && db.contexts == old(db.contexts)
    ensures ok ==> db.tree.abs == old(db.tree.abs)[(c, FullPath(filter)) := qos]
    ensures ok ==> if mqtt31 && (c, FullPath(filter)) in old(db.tree.abs) then db.contexts == old(db.contexts)
                   else db.GetsRetained(c, filter, qos, kept, old(db.store), old(db.contexts)[c], db.contexts[c])
    ensures GotRetainedOnly(old(db.contexts)[c], db.contexts[c], db.tree.ret)
            && db.contexts[c].peer == old(db.contexts)[c].peer
  {
    hide Sound, DbOk, Alike, Once, Database.GetsRetained, GotRetainedOnly;
    kept := [];
    assert db.contexts == db.contexts[c := db.contexts[c]];
    NoneRetained(db.contexts[c], db.tree.ret);
    if filter == "" {
      return false, kept;
    }
    ok := SubTopicCheck(filter);
    if !ok || qos > 2 {
      return false, kept;
    }
    ProperPath(filter);
    var again := db.tree.SubAdd(c, filter, qos);
    if !(mqtt31 && again) {
      kept := db.RetainQueue(c, filter, qos, now);
      assert AllIncoming(old(db.contexts), db.contexts) by {
        RetainedIncoming(db, c, filter, qos, kept, old(db.store), old(db.contexts), db.contexts);
      }
      IncomingWaits(old(db.contexts), db.contexts);
      OnceKept(db.log, old(db.contexts), db.contexts, db.nextStore, db.nextStore);
      CopiesRetained(db, c, filter, qos, kept, old(db.store), old(db.contexts)[c], db.contexts[c]);
    }
  }

  /** The queue is as it was, with copies of retained messages at its end. */
  ghost predicate GotRetainedOnly(s0: Context, s: Context, ret: map<Path, nat>) {
    && |s0.msgs| <= |s.msgs| && s.msgs[..|s0.msgs|] == s0.msgs && s.peer == s0.peer
    && forall k | |s0.msgs| <= k < |s.msgs| ::
         FreshCopy(s.msgs[k]) && s.msgs[k].key.retain && s.msgs[k].key.store in ret.Values
  }

  lemma NoneRetained(s: Context, ret: map<Path, nat>)
    ensures GotRetainedOnly(s, s, ret)
  {
  }

  lemma GotRetainedMore(s0: Context, s1: Context, s2: Context, ret: map<Path, nat>)
    requires GotRetainedOnly(s0, s1, ret) && GotRetainedOnly(s1, s2, ret)
    ensures GotRetainedOnly(s0, s2, ret)
  {
    assert forall k | 0 <= k < |s1.msgs| :: s2.msgs[k] == s2.msgs[..|s1.msgs|][k] == s1.msgs[k];
    assert s2.msgs[..|s0.msgs|] == s1.msgs[..|s0.msgs|];
  }

  lemma CopiesRetained(db: Database, c: nat, filter: string, qos: nat, kept: seq<nat>, store: Store, before: Context,
                       after: Context)
    requires db.tree.Valid() && db.GetsRetained(c, filter, qos, kept, store, before, after)
    ensures GotRetainedOnly(before, after, db.tree.ret) && after.peer == before.peer
  {
    hide Sound;
    forall k | |before.msgs| <= k < |after.msgs|
      ensures FreshCopy(after.msgs[k]) && after.msgs[k].key.retain && after.msgs[k].key.store in db.tree.ret.Values
    {
      var j := k - |before.msgs|;
      assert RetainedCopy(after.msgs[|before.msgs| + j], db.tree.nodes, kept[j], qos, store);
      db.tree.RetainedAt(kept[j]);
    }
  }

  /** The subscriptions after those to `filters`, in their order, up to the first that is not granted. */
  function WithFilters(abs: map<(nat, Path), nat>, c: nat, filters: seq<(string, nat)>): map<(nat, Path), nat>
    decreases |filters|
  {
    if filters == [] || !Grantable(filters[0].0, filters[0].1) then abs
    else WithFilters(abs[(c, FullPath(filters[0].0)) := filters[0].1], c, filters[1..])
  }

  predicate AllGrantable(filters: seq<(string, nat)>) {
    forall j | 0 <= j < |filters| :: Grantable(filters[j].0, filters[j].1)
  }

  function QosList(filters: seq<(string, nat)>): seq<nat> {
    seq(|filters|, j requires 0 <= j < |filters| => filters[j].1)
  }

  /**
    `mqtt3_handle_subscribe`, from the filters of the packet on. They are subscribed to one after the other. The SUBACK
    names the QoS of each, but is not sent if one of them is refused; those before it stay subscribed to.
  */
  method HandleSubscribe(db: Database, c: nat, mid: nat, filters: seq<(string, nat)>, mqtt311: bool, flags: nat,
                         now: int)
      returns (rc: nat)
    requires InOrder(db) && c < |db.contexts|
    modifies db`store, db`contexts, db`sent, db.tree
    ensures InOrder(db) && Only(c, old(db.contexts), db.contexts) && db.tree.ret == old(db.tree.ret)
    ensures rc == if mqtt311 && (flags != 2 || filters == []) then 2 else if AllGrantable(filters) then 0 else 1
    ensures db.tree.abs == if mqtt311 && flags != 2 then old(db.tree.abs) else WithFilters(old(db.tree.abs), c, filters)
    ensures db.sent == old(db.sent) + if rc == 0 then [Suback(c, mid, QosList(filters))] else []
    ensures GotRetainedOnly(old(db.contexts)[c], db.contexts[c], db.tree.ret)
            && db.contexts[c].peer == old(db.contexts)[c].peer
  {
    hide InOrder, Database.GetsRetained, GotRetainedOnly, Grantable;
    NoneRetained(db.contexts[c], db.tree.ret);
    assert db.contexts == db.contexts[c := db.contexts[c]];
    if mqtt311 {
      if flags != 2 {
        return 2;
      }
    }
    var granted: seq<nat> := [];
    assert filters[0..] == filters;
    for j := 0 to |filters|
      invariant InOrder(db) && Only(c, old(db.contexts), db.contexts) && db.tree.ret == old(db.tree.ret)
                && db.sent == old(db.sent)
      invariant AllGrantable(filters[..j]) && granted == QosList(filters[..j])
      invariant WithFilters(db.tree.abs, c, filters[j..]) == WithFilters(old(db.tree.abs), c, filters)
      invariant GotRetainedOnly(old(db.contexts)[c], db.contexts[c], db.tree.ret)
                && db.contexts[c].peer == old(db.contexts)[c].peer
    {
      ghost var s := db.contexts[c];
      assert filters[j..][1..] == filters[j + 1..];
      var ok, _ := AddSubscription(db, c, filters[j].0, filters[j].1, !mqtt311, now);
      if !ok {
        return 1;
      }
      GotRetainedMore(old(db.contexts)[c], s, db.contexts[c], db.tree.ret);
      granted := granted + [filters[j].1];
    }
    assert filters[..|filters|] == filters;
    if mqtt311 {
      if granted == [] {
        return 2;
      }
    }
    Send(db, Suback(c, mid, granted));
    return 0;
  }

  lemma RetainedIncoming(db: Database, c: nat, filter: string, qos: nat, kept: seq<nat>, store: Store,
                         before: seq<Context>, after: seq<Context>)
    requires Only(c, before, after) && db.GetsRetained(c, filter, qos, kept, store, before[c], after[c])
    ensures AllIncoming(before, after)
  {
    forall d: nat ensures StillIncoming(before, after, d) {
      if d == c {
        assert forall k | 0 <= k < |kept| ::
              RetainedCopy(after[c].msgs[|before[c].msgs| + k], db.tree.nodes, kept[k], qos, store);
        forall k | |before[c].msgs| <= k < |after[c].msgs| ensures FreshCopy(after[c].msgs[k]) {
          assert RetainedCopy(after[c].msgs[|before[c].msgs| + (k - |before[c].msgs|)], db.tree.nodes,
                              kept[k - |before[c].msgs|], qos, store);
        }
      }
    }
  }

  /** One filter of an UNSUBSCRIBE. */
  method DropSubscription(db: Database, c: nat, filter: string) returns (ok: bool)
    requires InOrder(db) && c < |db.contexts|
    modifies db.tree
    ensures InOrder(db) && db.tree.ret == old(db.tree.ret)
    ensures ok <==> Grantable(filter, 0)
    ensures db.tree.abs == if ok then old(db.tree.abs) - {(c, FullPath(filter))} else old(db.tree.abs)
  {
    hide Sound, DbOk, Alike, Once;
    if filter == "" {
      return false;
    }
    ok := SubTopicCheck(filter);
    if !ok {
      return false;
    }
    db.tree.SubRemove(c, filter);
  }

  /** The subscriptions after those to `filters` are given up, in their order, up to the first that is not valid. */
  function WithoutFilters(abs: map<(nat, Path), nat>, c: nat, filters: seq<string>): map<(nat, Path), nat>
    decreases |filters|
  {
    if filters == [] || !Grantable(filters[0], 0) then abs
    else WithoutFilters(abs - {(c, FullPath(filters[0]))}, c, filters[1..])
  }

  predicate AllValid(filters: seq<string>) {
    forall j | 0 <= j < |filters| :: Grantable(filters[j], 0)
  }

  /** `mqtt3_handle_unsubscribe`, from the filters of the packet on; it may name none. */
  method HandleUnsubscribe(db: Database, c: nat, mid: nat, filters: seq<string>, mqtt311: bool, flags: nat)
      returns (rc: nat)
    requires InOrder(db) && c < |db.contexts|
    modifies db`sent, db.tree
    ensures InOrder(db) && db.tree.ret == old(db.tree.ret)
    ensures rc == if mqtt311 && flags != 2 then 2 else if AllValid(filters) then 0 else 1
    ensures db.tree.abs == if mqtt311 && flags != 2 then old(db.tree.abs)
            else WithoutFilters(old(db.tree.abs), c, filters)
    ensures db.sent == old(db.sent) + if rc == 0 then [Unsuback(c, mid)] else []
  {
    hide InOrder, Grantable;
    if mqtt311 {
      if flags != 2 {
        return 2;
      }
    }
    assert filters[0..] == filters;
    for j := 0 to |filters|
      invariant InOrder(db) && db.tree.ret == old(db.tree.ret) && db.sent == old(db.sent) && AllValid(filters[..j])
      invariant WithoutFilters(db.tree.abs, c, filters[j..]) == WithoutFilters(old(db.tree.abs), c, filters)
    {
      assert filters[j..][1..] == filters[j + 1..];
      var ok := DropSubscription(db, c, filters[j]);
      if !ok {
        return 1;
      }
    }
    assert filters[..|filters|] == filters;
    Send(db, Unsuback(c, mid));
    return 0;
  }

  /** `mqtt3_db_message_timeout_check`. */
  method Timeout(db: Database, now: int, timeout: nat)
    requires InOrder(db)
    modifies db`contexts
    ensures InOrder(db) && SamePeers(old(db.contexts), db.contexts)
    ensures forall c: nat | c < |db.contexts| ::
              TimedOutSession(old(db.contexts)[c], db.contexts[c], now - timeout, now)
    ensures forall c: nat | c < |db.contexts| :: Repeats(old(db.contexts)[c], db.contexts[c], now - timeout, now)
  {
    hide Sound, DbOk, Alike, Once, Repeats;
    db.TimeoutCheck(now, timeout);
    db.TreeKept();
    KeysWait(old(db.contexts), db.contexts);
    OnceKept(db.log, old(db.contexts), db.contexts, db.nextStore, db.nextStore);
  }

  /** `mqtt3_db_message_write`, up to the first send that fails. */
  method Write(db: Database, c: nat, budget: nat, now: int) returns (done: bool)
    requires InOrder(db) && c < |db.contexts|
    modifies db`store, db`storeList, db`storeCount, db`contexts, db`sent
    ensures InOrder(db) && Only(c, old(db.contexts), db.contexts) && db.contexts[c].peer == old(db.contexts)[c].peer
    ensures Tracked(Keys(db.contexts[c].msgs)) == Tracked(Keys(old(db.contexts)[c].msgs))
    ensures |old(db.sent)| <= |db.sent| && db.sent[..|old(db.sent)|] == old(db.sent)
    ensures InQueueOrder(db.sent[|old(db.sent)|..], Keys(old(db.contexts)[c].msgs), c)
    ensures Wrote(old(db.contexts)[c].msgs, db.contexts[c].msgs, db.sent[|old(db.sent)|..], done, c)
  {
    hide Sound, DbOk, Once, IncomingOk, WriteOut, InQueueOrder, Tracked, Wrote;
    QueueIncoming(db, c);
    WrittenInOrder(db.contexts[c].msgs, 0, 0, budget, c, db.limits, now);
    assert Keys(db.contexts[c].msgs)[0..] == Keys(db.contexts[c].msgs);
    done := db.MessageWrite(c, budget, now);
    QueueIncoming(db, c);
    db.TreeKept();
    TrackedWait(old(db.contexts), db.contexts, c);
    OnceKept(db.log, old(db.contexts), db.contexts, db.nextStore, db.nextStore);
  }

  lemma QueueIncoming(db: Database, c: nat)
    requires db.Valid() && c < |db.contexts|
    ensures IncomingOk(Keys(db.contexts[c].msgs))
  {
    assert Fine(db.limits, db.store, db.contexts, c);
  }
}
