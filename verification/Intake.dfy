/** The packets that clients send about messages: PUBLISH, PUBACK, PUBREC, PUBREL and PUBCOMP. */
module Intake {
  import opened Sequences
  import opened Wrappers
  import opened Topics
  import opened Tree
  import opened Session
  import opened Phases
  import opened Accounts
  import opened Offers
  import opened Broker

  /**
    A database in order: reference counts, queues and tree agree, every message is accounted for, and the retained
    messages are as they were published.
  */
  ghost predicate InOrder(db: Database)
    reads db, db.tree
  {
    db.Valid() && db.TreeValid() && Once(db.log, db.contexts, db.nextStore)
        && RetainedAs(db.tree.ret, db.born, db.log.reused)
  }

  /**
    A retained message has a topic and a payload. It stands under its own topic unless its packet id was used again.
  */
  predicate KeptAs(p: Path, m: nat, born: Store, reused: multiset<nat>) {
    && m in born && born[m].topic.Some? && born[m].payloadlen > 0
    && (reused[m] == 0 ==> born[m].retain && FullPath(born[m].topic.value) == p)
  }

  ghost predicate RetainedAs(ret: map<Path, nat>, born: Store, reused: multiset<nat>) {
    forall p {:trigger ret[p]} | p in ret :: KeptAs(p, ret[p], born, reused)
  }

  lemma RetainedStill(ret: map<Path, nat>, born: Store, reused: multiset<nat>, born': Store, reused': multiset<nat>)
    requires RetainedAs(ret, born, reused) && reused <= reused' && Extends(born, born')
    ensures RetainedAs(ret, born', reused')
  {
    forall p | p in ret ensures KeptAs(p, ret[p], born', reused') {
      assert KeptAs(p, ret[p], born, reused) && reused[ret[p]] <= reused'[ret[p]];
    }
  }

  /** A message is handed on, under its own topic and flag unless its packet id was used again. */
  lemma RetainedOn(ret: map<Path, nat>, at: map<Path, nat>, born: Store, reused: multiset<nat>, topic: string,
                   retain: bool, m: nat)
    requires RetainedAs(ret, born, reused) && m in born && BornOk(born[m])
    requires reused[m] == 0 ==> born[m].topic == Some(topic) && born[m].retain == retain
    ensures RetainedAs(RetainedIf(ret, at, topic, retain, m, born[m].payloadlen), born, reused)
  {
    var ret' := RetainedIf(ret, at, topic, retain, m, born[m].payloadlen);
    forall p | p in ret' ensures KeptAs(p, ret'[p], born, reused) {
      assert p in ret && ret'[p] == ret[p] ==> KeptAs(p, ret[p], born, reused);
    }
  }

  /** A message as it is stored first, without any references. */
  function Born(sourceMid: nat, topic: Option<string>, qos: nat, payloadlen: nat, retain: bool): Stored {
    Stored(0, sourceMid, topic, qos, retain, payloadlen, [])
  }

  /** The same message, perhaps with other references to it, or sent to other clients. */
  predicate SameMessage(s: Stored, s': Stored) {
    s == s'.(refCount := s.refCount, dests := s.dests)
  }

  /** What a stored message was when it was stored. */
  lemma StoredAs(db: Database, m: nat)
    requires db.Valid() && m in db.store
    ensures m in db.born && BornOk(db.born[m]) && SameMessage(db.store[m], db.born[m])
  {
  }

  method Send(db: Database, packet: Packet)
    requires InOrder(db)
    modifies db`sent
    ensures InOrder(db) && db.sent == old(db.sent) + [packet]
  {
    hide Sound, DbOk, Once, Alike, RetainedAs;
    db.sent := db.sent + [packet];
  }

  ghost method Note(db: Database, log: Log)
    requires db.Valid() && db.TreeValid()
    modifies db`log
    ensures db.Valid() && db.TreeValid() && db.log == log
  {
    hide Sound, DbOk;
    db.log := log;
  }

  /** What a distribution of message `m` does to the sessions. */
  ghost predicate Distributed(db: Database, m: nat, topic: string, qos: nat, abs: map<(nat, Path), nat>, had: seq<nat>,
                              before: seq<Context>, after: seq<Context>) {
    AllServed(Mail(db.limits, db.mayRead, m, topic, qos), abs, had, before, after)
  }

  /**
    A PUBLISH with QoS 0, or with QoS 1 under a packet id that no message waits under: store the message and hand it on.
  */
  method RouteNew(db: Database, mid: nat, topic: string, qos: nat, payloadlen: nat, retain: bool, now: int)
    requires InOrder(db) && ValidTopic(topic)
    modifies db`store, db`storeList, db`storeCount, db`nextStore, db`born, db`contexts, db`held, db`log, db.tree
    ensures InOrder(db) && AllIncoming(old(db.contexts), db.contexts) && db.held == old(db.held)
    ensures old(db.nextStore) !in old(db.born)
    ensures db.born == old(db.born)[old(db.nextStore) := Born(mid, Some(topic), qos, payloadlen, retain)]
    ensures db.log == old(db.log).(routed := old(db.log).routed + multiset{old(db.nextStore)})
    ensures Distributed(db, old(db.nextStore), topic, qos, db.tree.abs, [], old(db.contexts), db.contexts)
    ensures AllRight(Mail(db.limits, db.mayRead, old(db.nextStore), topic, qos), db.tree.abs, [], old(db.contexts),
                     db.contexts)
    ensures db.tree.abs == old(db.tree.abs) && db.tree.subsOf == old(db.tree.subsOf)
    ensures db.tree.ret == RetainedIf(old(db.tree.ret), old(db.tree.at), topic, retain, old(db.nextStore), payloadlen)
  {
    hide Sound, DbOk, Database.Valid, Database.TreeValid, Once, AllIncoming, SameWaiting, AllServed, RetainedAfter,
         AllRight;
    var m := db.MessageStore(mid, Some(topic), qos, payloadlen, retain);
    db.MessagesQueue(m, topic, qos, retain, true, now);
    IncomingWaits(old(db.contexts), db.contexts);
    OnceFresh(old(db.log), old(db.contexts), db.contexts, m);
    RetainedStill(old(db.tree.ret), old(db.born), old(db.log.reused), db.born, db.log.reused);
    RetainedOn(old(db.tree.ret), old(db.tree.at), db.born, db.log.reused, topic, retain, m);
  }

  /** A PUBLISH with QoS 1 under the packet id of a message that waits: that message is handed on. */
  method RouteAgain(db: Database, c: nat, m: nat, topic: string, qos: nat, retain: bool, now: int)
    requires InOrder(db) && ValidTopic(topic) && m in db.store && c < |db.contexts| && HasWaiting(db.contexts[c], m)
    modifies db`store, db`storeList, db`storeCount, db`contexts, db`held, db`log, db.tree
    ensures InOrder(db) && AllIncoming(old(db.contexts), db.contexts) && db.held == old(db.held)
    ensures db.born == old(db.born) && m in db.born && db.born[m].payloadlen == old(db.store)[m].payloadlen
    ensures db.log == old(db.log).(routed := old(db.log).routed + multiset{m}, reused := old(db.log).reused
                                   + multiset{m})
    ensures Distributed(db, m, topic, qos, db.tree.abs, old(db.store)[m].dests, old(db.contexts), db.contexts)
    ensures AllRight(Mail(db.limits, db.mayRead, m, topic, qos), db.tree.abs, old(db.store)[m].dests, old(db.contexts),
                     db.contexts)
    ensures db.tree.abs == old(db.tree.abs) && db.tree.subsOf == old(db.tree.subsOf)
    ensures db.tree.ret == RetainedIf(old(db.tree.ret), old(db.tree.at), topic, retain, m, old(db.store)[m].payloadlen)
  {
    hide Sound, DbOk, Database.Valid, Database.TreeValid, Once, AllIncoming, SameWaiting, AllServed, RetainedAfter,
         HasWaiting, AllRight;
    HoldsWaits(db.contexts, c, m);
    StoredAs(db, m);
    db.MessagesQueue(m, topic, qos, retain, true, now);
    IncomingWaits(old(db.contexts), db.contexts);
    OnceReused(old(db.log), old(db.contexts), db.contexts, db.nextStore, m);
    Note(db, old(db.log).(routed := old(db.log).routed + multiset{m}, reused := old(db.log).reused + multiset{m}));
    RetainedStill(old(db.tree.ret), old(db.born), old(db.log.reused), db.born, db.log.reused);
    RetainedOn(old(db.tree.ret), old(db.tree.at), db.born, db.log.reused, topic, retain, m);
  }

  /** Message `m` waits in a session. */
  ghost predicate HasWaiting(s: Context, m: nat) {
    exists i :: 0 <= i < |s.msgs| && s.msgs[i].key.store == m && s.msgs[i].key.dir == In
  }

  lemma HoldsWaits(contexts: seq<Context>, c: nat, m: nat)
    requires c < |contexts| && HasWaiting(contexts[c], m)
    ensures Waiting(contexts, m) > 0
  {
    var i :| 0 <= i < |contexts[c].msgs| && contexts[c].msgs[i].key.store == m && contexts[c].msgs[i].key.dir == In;
    CountPositive(Keys(contexts[c].msgs), i, RefersIn(m));
    CountAllContains(contexts, c, RefersIn(m));
  }

  /** A QoS 2 PUBLISH under a new packet id: store the message and queue it until it is released. */
  method Accept(db: Database, c: nat, mid: nat, topic: Option<string>, payloadlen: nat, retain: bool, now: int)
      returns (res: nat)
    requires InOrder(db) && c < |db.contexts| && !Waits(Keys(db.contexts[c].msgs), mid)
    requires if topic.Some? then ValidTopic(topic.value) else payloadlen == 0
    modifies db`store, db`storeList, db`storeCount, db`nextStore, db`born, db`contexts, db`log
    ensures InOrder(db) && |db.contexts| == |old(db.contexts)| && Extends(old(db.born), db.born)
    ensures var s, m := old(db.contexts)[c], old(db.nextStore);
            var placed := s.peer.connected && HasPlace(s, 2, db.limits);
            if s.peer.named && Accepts(s, 2, db.limits)
            then && res == (if s.peer.connected && !placed then 2 else 0)
                 && db.contexts[c] == WithEntry(s, EntryFor(s, db.limits, m, mid, retain, now))
                 && db.contexts == old(db.contexts)[c := db.contexts[c]]
                 && db.log == old(db.log).(accepted := old(db.log).accepted + {m})
                 && m in db.store && db.born == old(db.born)[m := Born(mid, topic, 2, payloadlen, retain)]
                 && SameMessage(db.store[m], db.born[m]) && db.nextStore == m + 1
            else && res == (if s.peer.named then 2 else 0) && db.log == old(db.log)
                 && db.contexts == old(db.contexts)[c := s.(dropping := db.contexts[c].dropping)]
                 && m in db.store && db.store[m].refCount == 0
                 && db.born == old(db.born)[m := Born(mid, topic, 2, payloadlen, retain)]
  {
    hide Sound, DbOk, Database.TreeValid, Once, SameWaiting, IncomingOk, Inserted, WithEntry, EntryFor;
    var m := db.MessageStore(mid, topic, 2, payloadlen, retain);
    ghost var before, store := db.contexts, db.store;
    RetainedStill(db.tree.ret, old(db.born), db.log.reused, db.born, db.log.reused);
    res := db.MessageInsert(c, mid, In, 2, retain, m, now);
    IncomingInserted(db.limits, before[c], db.contexts[c], store, db.store, c, m, mid, retain, now, res);
    db.TreeKept();
    if before[c].peer.named && Accepts(before[c], 2, db.limits) {
      OnceAccepted(db.log, before, m, c, EntryFor(before[c], db.limits, m, mid, retain, now), db.contexts[c]);
      Note(db, db.log.(accepted := db.log.accepted + {m}));
    } else {
      KeysWait(before, db.contexts);
      OnceKept(db.log, before, db.contexts, m, m + 1);
    }
  }

  /** An incoming message is queued, in its place or for one, or dropped. */
  lemma IncomingInserted(limits: Limits, s: Context, s': Context, store: Store, store': Store, c: nat, m: nat, mid: nat,
                         retain: bool, now: int, rc: nat)
    requires Inserted(limits, s, s', store, store', c, Key(m, mid, 2, retain, In), now, rc)
    ensures if s.peer.named && Accepts(s, 2, limits) then
              && rc == (if s.peer.connected && !HasPlace(s, 2, limits) then 2 else 0)
              && s' == WithEntry(s, EntryFor(s, limits, m, mid, retain, now))
              && Appended(s, EntryFor(s, limits, m, mid, retain, now), s')
              && m in store && m in store' && SameMessage(store'[m], store[m])
              && EntryFor(s, limits, m, mid, retain, now).key == Key(m, mid, 2, retain, In)
            else
              s' == s.(dropping := s'.dropping) && store' == store && rc == if s.peer.named then 2 else 0
  {
  }

  function WithEntry(s: Context, e: Entry): Context {
    s.(msgs := s.msgs + [e], last := Some(|s.msgs|), msgCount := s.msgCount + 1,
       msgCount12 := s.msgCount12 + if e.key.qos > 0 then 1 else 0)
  }

  /** The entry of a QoS 2 message that is accepted: it waits for its PUBREL, or for a place. */
  function EntryFor(s: Context, limits: Limits, m: nat, mid: nat, retain: bool, now: int): Entry {
    Entry(Key(m, mid, 2, retain, In), if s.peer.connected && HasPlace(s, 2, limits) then WaitForPubrel else Queued,
          false,
          now)
  }

  /** What a PUBLISH of a client amounts to. */
  datatype Effect = Refused | Ignored | Routed(m: nat) | Rerouted(m: nat) | Duplicate | Accepted(m: nat) | Dropped

  function EffectOf(s: Context, limits: Limits, next: nat, held: nat, qos: nat, mid: nat, bad: bool): Effect {
    if qos < 2 && bad then Ignored
    else if qos < 2 then if qos == 1 && Waits(Keys(s.msgs), mid) then Rerouted(held) else Routed(next)
    else if Waits(Keys(s.msgs), mid) then Duplicate
    else if s.peer.named && Accepts(s, 2, limits) then Accepted(next)
    else Dropped
  }

  /** The message that waited under the packet id of a PUBLISH, and 0 if it was not handed on. */
  function Reused(effect: Effect): nat {
    if effect.Rerouted? then effect.m else 0
  }

  /** The clients that a message had been sent to before it was handed on, and its length. */
  function SentBefore(effect: Effect, store: map<nat, Stored>): seq<nat> {
    if effect.Rerouted? && effect.m in store then store[effect.m].dests else []
  }

  function LengthOf(effect: Effect, store: map<nat, Stored>, payloadlen: nat): nat {
    if effect.Rerouted? && effect.m in store then store[effect.m].payloadlen else payloadlen
  }

  /** The accounts after a PUBLISH. */
  function Logged(log: Log, effect: Effect): Log {
    match effect
    case Routed(m) => log.(routed := log.routed + multiset{m})
    case Rerouted(m) => log.(routed := log.routed + multiset{m}, reused := log.reused + multiset{m})
    case Accepted(m) => log.(accepted := log.accepted + {m})
    case _ => log
  }

  /** Whether a QoS 2 PUBLISH is answered with a PUBREC at once. */
  predicate Answered(s: Context, limits: Limits, mid: nat) {
    Waits(Keys(s.msgs), mid) || !s.peer.named
        || (Accepts(s, 2, limits) && (HasPlace(s, 2, limits) || !s.peer.connected))
  }

  /** A PUBLISH with QoS 2, of a topic that is allowed, or of none if it was denied. */
  method TakeIn(db: Database, c: nat, mid: nat, topic: Option<string>, payloadlen: nat, retain: bool, now: int)
      returns (res: nat, effect: Effect)
    requires InOrder(db) && c < |db.contexts| && if topic.Some? then ValidTopic(topic.value) else payloadlen == 0
    modifies db`store, db`storeList, db`storeCount, db`nextStore, db`born, db`contexts, db`log, db`sent
    ensures InOrder(db) && SamePeers(old(db.contexts), db.contexts) && Extends(old(db.born), db.born)
    ensures effect == EffectOf(old(db.contexts)[c], db.limits, old(db.nextStore), 0, 2, mid, false)
    ensures res == if Answered(old(db.contexts)[c], db.limits, mid) then 0 else 2
    ensures db.sent == if res == 0 then old(db.sent) + [Pubrec(c, mid)] else old(db.sent)
    ensures db.log == Logged(old(db.log), effect)
    ensures if effect.Accepted? then
              && db.contexts == old(db.contexts)[c := db.contexts[c]]
              && db.contexts[c] == WithEntry(old(db.contexts)[c],
                                             EntryFor(old(db.contexts)[c], db.limits, effect.m, mid, retain, now))
              && effect.m in db.store && db.born == old(db.born)[effect.m := Born(mid, topic, 2, payloadlen, retain)]
              && SameMessage(db.store[effect.m], db.born[effect.m]) && db.nextStore == effect.m + 1
            else
              db.contexts == old(db.contexts)[c := old(db.contexts)[c].(dropping := db.contexts[c].dropping)]
    ensures effect.Dropped? ==>
              var m := old(db.nextStore);
              && m in db.store && db.store[m].refCount == 0
              && db.born == old(db.born)[m := Born(mid, topic, 2, payloadlen, retain)]
    ensures AllFollow(old(db.contexts), db.contexts, c, Nothing)
  {
    hide Sound, DbOk, Database.Valid, Database.TreeValid, Once, IncomingOk, Accepts, HasPlace, AllFollow, Follows;
    var stored := Find(db, c, mid);
    var s := db.contexts[c];
    res, effect := 0, Duplicate;
    if stored.None? {
      effect := if s.peer.named && Accepts(s, 2, db.limits) then Accepted(db.nextStore) else Dropped;
      res := Accept(db, c, mid, topic, payloadlen, retain, now);
    }
    TakenFollow(old(db.contexts), db.contexts, c, db.limits, old(db.nextStore), mid, retain, now, effect.Accepted?);
    if res == 0 {
      Send(db, Pubrec(c, mid));
    }
  }

  /** A queue that a message has come to, or not. */
  lemma TakenFollow(before: seq<Context>, after: seq<Context>, c: nat, limits: Limits, m: nat, mid: nat, retain: bool,
                    now: int, accepted: bool)
    requires c < |before| == |after| && after == before[c := after[c]]
    requires if accepted then after[c] == WithEntry(before[c], EntryFor(before[c], limits, m, mid, retain, now))
             else after[c] == before[c].(dropping := after[c].dropping)
    ensures AllFollow(before, after, c, Nothing)
  {
    hide AllFollow, Follows, HasPlace;
    if accepted {
      assert after[c].msgs[|before[c].msgs|..] == [EntryFor(before[c], limits, m, mid, retain, now)];
      FollowsMore(before[c].msgs, after[c].msgs, Nothing);
    } else {
      FollowsSame(before[c].msgs, Nothing);
    }
    AllFollowOnly(before, after, c, Nothing);
  }

  method Find(db: Database, c: nat, mid: nat) returns (m: Option<nat>)
    requires InOrder(db) && c < |db.contexts|
    ensures m.Some? <==> Waits(Keys(db.contexts[c].msgs), mid)
    ensures m.Some? ==> m.value in db.store && HasWaiting(db.contexts[c], m.value)
  {
    hide Sound, DbOk, Database.TreeValid, Once;
    m := db.StoreFind(c, mid);
  }

  /** A PUBLISH of an allowed topic with QoS 0 or 1. */
  method HandOn(db: Database, c: nat, qos: nat, topic: string, mid: nat, payloadlen: nat, retain: bool, now: int)
      returns (effect: Effect)
    requires InOrder(db) && c < |db.contexts| && ValidTopic(topic) && qos <= 1
    modifies db`store, db`storeList, db`storeCount, db`nextStore, db`born, db`contexts, db`held, db`log, db`sent,
             db.tree
    ensures InOrder(db) && AllIncoming(old(db.contexts), db.contexts) && db.held == old(db.held)
    ensures effect == EffectOf(old(db.contexts)[c], db.limits, old(db.nextStore), Reused(effect), qos, mid, false)
    ensures db.tree.abs == old(db.tree.abs) && db.tree.subsOf == old(db.tree.subsOf)
    ensures effect.Rerouted? ==> HasWaiting(old(db.contexts)[c], effect.m) && effect.m in old(db.store)
                                 && db.born == old(db.born) && db.nextStore == old(db.nextStore)
    ensures Extends(old(db.born), db.born) && effect.m in db.born
    ensures db.born[effect.m].payloadlen == LengthOf(effect, old(db.store), payloadlen)
    ensures db.log == Logged(old(db.log), effect)
    ensures Distributed(db, effect.m, topic, qos, db.tree.abs, SentBefore(effect, old(db.store)), old(db.contexts),
                        db.contexts)
    ensures AllRight(Mail(db.limits, db.mayRead, effect.m, topic, qos), db.tree.abs,
                     SentBefore(effect, old(db.store)), old(db.contexts), db.contexts)
    ensures db.tree.ret == RetainedIf(old(db.tree.ret), old(db.tree.at), topic, retain, effect.m,
                                      LengthOf(effect, old(db.store), payloadlen))
    ensures db.sent == old(db.sent) + if qos == 1 then [Puback(c, mid)] else []
  {
    hide Sound, DbOk, Database.Valid, Database.TreeValid, Once, AllIncoming, AllServed, RetainedAfter, HasWaiting,
         AllRight;
    var stored := None;
    if qos > 0 {
      stored := Find(db, c, mid);
    }
    if stored.None? {
      effect := Routed(db.nextStore);
      RouteNew(db, if qos > 0 then mid else 0, topic, qos, payloadlen, retain, now);
    } else {
      effect := Rerouted(stored.value);
      RouteAgain(db, c, stored.value, topic, qos, retain, now);
    }
    if qos == 1 {
      Send(db, Puback(c, mid));
    }
  }

  /**
    `mqtt3_handle_publish`, from the fields of the packet on; `permitted` is the answer of the access check. A packet
    of a denied topic, or one too large, is acknowledged all the same, but never handed on.
  */
  method HandlePublish(db: Database, c: nat, qos: nat, topic: string, mid: nat, payloadlen: nat, retain: bool,
                       sizeLimit: nat, permitted: bool, now: int)
      returns (rc: nat, effect: Effect)
    requires InOrder(db) && c < |db.contexts| && qos <= 3
    modifies db`store, db`storeList, db`storeCount, db`nextStore, db`born, db`contexts, db`held, db`log, db`sent,
             db.tree
    ensures InOrder(db) && SamePeers(old(db.contexts), db.contexts) && db.held == old(db.held)
            && Extends(old(db.born), db.born)
    ensures db.tree.abs == old(db.tree.abs) && db.tree.subsOf == old(db.tree.subsOf)
    ensures var bad := !permitted || (sizeLimit > 0 && payloadlen > sizeLimit);
            var s := old(db.contexts)[c];
            && effect == (if qos == 3 || !ValidTopic(topic) || |topic| > 65535 then Refused
                          else EffectOf(s, db.limits, old(db.nextStore), Reused(effect), qos, mid, bad))
            && rc == (if effect.Refused? then 1 else if qos == 2 && bad && !Answered(s, db.limits, mid) then 2 else 0)
            && db.sent == old(db.sent) + (if effect.Refused? || qos == 0 then [] else if qos == 1 then [Puback(c, mid)]
                                          else if Answered(s, db.limits, mid) then [Pubrec(c, mid)] else [])
            && db.log == Logged(old(db.log), effect)
            && (effect.Accepted? ==>
                  && effect.m in db.store && effect.m in db.born && SameMessage(db.store[effect.m], db.born[effect.m])
                  && db.born[effect.m] == (if bad then Born(mid, None, 2, 0, false)
                                           else Born(mid, Some(topic), 2, payloadlen, retain))
                  && db.contexts[c] == WithEntry(s, EntryFor(s, db.limits, effect.m, mid, !bad && retain, now)))
    ensures effect.Rerouted? ==> HasWaiting(old(db.contexts)[c], effect.m) && effect.m in old(db.store)
    ensures effect.Routed? || effect.Rerouted? ==>
              && AllIncoming(old(db.contexts), db.contexts) && effect.m in db.born
              && db.born[effect.m].payloadlen == LengthOf(effect, old(db.store), payloadlen)
              && Distributed(db, effect.m, topic, qos, db.tree.abs, SentBefore(effect, old(db.store)), old(db.contexts),
                             db.contexts)
              && AllRight(Mail(db.limits, db.mayRead, effect.m, topic, qos), db.tree.abs,
                          SentBefore(effect, old(db.store)), old(db.contexts), db.contexts)
              && db.tree.ret == RetainedIf(old(db.tree.ret), old(db.tree.at), topic, retain, effect.m,
                                           LengthOf(effect, old(db.store), payloadlen))
    ensures !effect.Routed? && !effect.Rerouted? ==>
              db.contexts == old(db.contexts)[c := db.contexts[c]] && db.tree.ret == old(db.tree.ret)
    ensures AllFollow(old(db.contexts), db.contexts, c, Nothing)
  {
    hide InOrder, Distributed, RetainedIf, HasWaiting, AllIncoming, Answered, Accepts, Waits, Literal, WithEntry,
         EntryFor, SameMessage, AllFollow, AllRight;
    NoneFollow(db.contexts, c);
    if qos == 3 || topic == "" {
      return 1, Refused;
    }
    var ok := PubTopicCheck(topic);
    if !ok {
      return 1, Refused;
    }
    if !permitted || (payloadlen > 0 && sizeLimit > 0 && payloadlen > sizeLimit) {
      if qos == 0 {
        return 0, Ignored;
      } else if qos == 1 {
        Send(db, Puback(c, mid));
        return 0, Ignored;
      } else {
        rc, effect := TakeIn(db, c, mid, None, 0, false, now);
        return;
      }
    }
    if qos < 2 {
      effect := HandOn(db, c, qos, topic, mid, payloadlen, retain, now);
      IncomingPeers(old(db.contexts), db.contexts);
      AllFollowIncoming(old(db.contexts), db.contexts, c, Nothing);
    } else {
      var res;
      res, effect := TakeIn(db, c, mid, Some(topic), payloadlen, retain, now);
    }
    rc := 0;
  }

  lemma NoneFollow(contexts: seq<Context>, c: nat)
    ensures AllFollow(contexts, contexts, c, Nothing)
  {
    NothingChanged(contexts);
    AllFollowIncoming(contexts, contexts, c, Nothing);
  }

  // ----- PUBREL -----

  /** The incoming entry under a packet id is gone, and no other one. */
  ghost predicate TakenOut(before: seq<Key>, after: seq<Key>, mid: nat) {
    forall id {:trigger Waits(after, id)} :: Waits(after, id) <==> id != mid && Waits(before, id)
  }

  /** What releasing an entry with key `k` changes outside the session that it was in. */
  ghost predicate ReleasedTo(db: Database, k: Key, stored: Stored, c: nat, abs: map<(nat, Path), nat>,
                             before: seq<Context>, after: seq<Context>) {
    |after| == |before| && forall d: nat | d < |after| && d != c ::
          ReleasedFor(db, k, stored, abs, before[d], after[d], d)
  }

  ghost predicate ReleasedFor(db: Database, k: Key, stored: Stored, abs: map<(nat, Path), nat>, before: Context,
                              after: Context, d: nat) {
    if stored.topic.None? then after == before
    else Served(Mail(db.limits, db.mayRead, k.store, stored.topic.value, stored.qos), abs, stored.dests, before, after,
                d)
  }

  /** What the other sessions got of a message that was released, with the topic and the QoS that it came with. */
  ghost predicate ReleasedRight(db: Database, k: Key, stored: Stored, c: nat, abs: map<(nat, Path), nat>,
                                before: seq<Context>, after: seq<Context>) {
    |after| == |before| && forall d: nat | d < |after| && d != c ::
          if stored.topic.None? then after[d] == before[d]
          else ServedRight(Mail(db.limits, db.mayRead, k.store, stored.topic.value, stored.qos), abs, stored.dests,
                           before[d], after[d], d)
  }

  lemma ReleasedIsRight(db: Database, k: Key, stored: Stored, c: nat, abs: map<(nat, Path), nat>,
                        before: seq<Context>, after: seq<Context>)
    requires ReleasedTo(db, k, stored, c, abs, before, after)
    ensures ReleasedRight(db, k, stored, c, abs, before, after)
  {
    hide Served, ServedRight;
    forall d: nat | d < |after| && d != c && stored.topic.Some?
      ensures ServedRight(Mail(db.limits, db.mayRead, k.store, stored.topic.value, stored.qos), abs, stored.dests,
                          before[d], after[d], d)
    {
      OneServedRight(Mail(db.limits, db.mayRead, k.store, stored.topic.value, stored.qos), abs, stored.dests,
                     before[d], after[d], d);
    }
  }

  /** Some entries may have started; nothing else about the session has changed. */
  ghost predicate OnlyStarted(s: Context, s': Context) {
    Keys(s'.msgs) == Keys(s.msgs) && s' == s.(msgs := s'.msgs)
  }

  /**
    The message with key `k` is offered to the session that it waited in like to any other, and its entry removed then.
  */
  ghost predicate Unqueued(db: Database, k: Key, stored: Stored, abs: map<(nat, Path), nat>, before: Context,
                           after: Context, c: nat) {
    exists s, i: nat :: ReleasedFor(db, k, stored, abs, before, s, c) && Unlinked(s, i, after) && s.msgs[i].key == k
  }

  /** All that releasing an entry does to the session that it was in. */
  ghost predicate ReleasedOwn(db: Database, k: Key, stored: Stored, abs: map<(nat, Path), nat>, before: Context,
                              after: Context, c: nat) {
    exists s, s' :: OnlyStarted(before, s) && Unqueued(db, k, stored, abs, s, s', c) && OnlyStarted(s', after)
  }

  lemma OwnStarts(db: Database, k: Key, stored: Stored, abs: map<(nat, Path), nat>, s0: Context, s1: Context,
                  s2: Context, c: nat)
    ensures OnlyStarted(s0, s0) && (OnlyStarted(s0, s1) && OnlyStarted(s1, s2) ==> OnlyStarted(s0, s2))
    ensures OnlyStarted(s0, s1) && Unqueued(db, k, stored, abs, s1, s2, c) ==>
              ReleasedOwn(db, k, stored, abs, s0, s2, c)
    ensures ReleasedOwn(db, k, stored, abs, s0, s1, c) && OnlyStarted(s1, s2) ==>
              ReleasedOwn(db, k, stored, abs, s0, s2, c)
  {
    hide Unqueued;
    assert OnlyStarted(s2, s2);
    if ReleasedOwn(db, k, stored, abs, s0, s1, c) && OnlyStarted(s1, s2) {
      var s, s' :| OnlyStarted(s0, s) && Unqueued(db, k, stored, abs, s, s', c) && OnlyStarted(s', s1);
      assert OnlyStarted(s', s2);
    }
  }

  ghost function After(log: Log, m: nat, discard: bool): Log {
    if discard then log.(discarded := log.discarded + multiset{m}) else log.(routed := log.routed + multiset{m})
  }

  ghost function RetainedBy(ret: map<Path, nat>, at: map<Path, nat>, k: Key, stored: Stored): map<Path, nat> {
    if stored.topic.None? then ret else RetainedIf(ret, at, stored.topic.value, k.retain, k.store, stored.payloadlen)
  }

  /** One entry is released: its message, unless it was denied, is handed on, and the entry removed. */
  method ReleaseEntry(db: Database, c: nat, i: nat, now: int) returns (ghost k: Key)
    requires InOrder(db) && c < |db.contexts| && i < |db.contexts[c].msgs| && db.contexts[c].msgs[i].key.dir == In
    modifies db`store, db`storeList, db`storeCount, db`contexts, db`held, db`log, db.tree
    ensures InOrder(db) && SamePeers(old(db.contexts), db.contexts) && db.held == old(db.held)
    ensures k == old(db.contexts)[c].msgs[i].key && k.store in old(db.store) && k.store in db.born
    ensures SameMessage(old(db.store)[k.store], db.born[k.store])
    ensures ReleasedTo(db, k, old(db.store)[k.store], c, db.tree.abs, old(db.contexts), db.contexts)
    ensures Unqueued(db, k, old(db.store)[k.store], db.tree.abs, old(db.contexts)[c], db.contexts[c], c)
    ensures db.log == After(old(db.log), k.store, old(db.store)[k.store].topic.None?)
    ensures db.tree.ret == RetainedBy(old(db.tree.ret), old(db.tree.at), k, old(db.store)[k.store])
    ensures db.tree.abs == old(db.tree.abs) && db.tree.subsOf == old(db.tree.subsOf)
    ensures TakenOut(Keys(old(db.contexts)[c].msgs), Keys(db.contexts[c].msgs), k.mid)
    ensures old(db.store)[k.store].sourceMid == k.mid && old(db.store)[k.store].retain == k.retain
    ensures |db.contexts[c].msgs| >= i
    ensures AllFollow(old(db.contexts), db.contexts, c, Released(k.mid))
    ensures forall mid: nat | AwaitsRelease(db.contexts[c].msgs, mid) :: AwaitsRelease(old(db.contexts)[c].msgs, mid)
  {
    hide Sound, DbOk, Database.Valid, Database.TreeValid, Once, ReleasedFor, StillIncoming, Unlinked, After, RetainedBy,
         IncomingOk, HeadPromoted, TakenOut, Waits, Follows, AllFollow, AwaitsRelease, AllIncoming, SameIncoming,
         Removed;
    EntryFacts(db, c, i);
    k := db.contexts[c].msgs[i].key;
    StoredAs(db, k.store);
    HandOnStored(db, c, i, now);
    IncomingPeers(old(db.contexts), db.contexts);
    ghost var mid := db.contexts;
    EntryFacts(db, c, i);
    OwnAwaits(old(db.contexts), mid, c, i, db.limits);
    db.MessageRemove(c, i);
    ReleasedEntry(old(db.log), old(db.contexts), mid, db.contexts, db.nextStore, c, i,
                  old(db.store)[k.store].topic.None?);
    ReleasedOthers(db, k, old(db.store)[k.store], c, db.tree.abs, old(db.contexts), mid, db.contexts, i);
    AllFollowIncoming(old(db.contexts), mid, c, Released(k.mid));
    AllFollowOnly(mid, db.contexts, c, Released(k.mid));
    AllFollowTrans(old(db.contexts), mid, db.contexts, c, Released(k.mid));
  }

  lemma OwnAwaits(before: seq<Context>, mid: seq<Context>, c: nat, i: nat, limits: Limits)
    requires AllIncoming(before, mid) && c < |before| && i < |mid[c].msgs| && IncomingOk(Keys(mid[c].msgs))
    ensures forall id: nat | AwaitsRelease(HeadPromoted(Removed(mid[c].msgs, i), limits), id) ::
              AwaitsRelease(before[c].msgs, id)
  {
    hide HeadPromoted, AwaitsRelease, Removed;
    assert StillIncoming(before, mid, c);
    assert forall k | 0 <= k < |mid[c].msgs| :: Keys(mid[c].msgs)[k] == mid[c].msgs[k].key;
    LeftAwaits(before[c].msgs, mid[c].msgs, i, limits);
  }

  lemma ReleasedOthers(db: Database, k: Key, stored: Stored, c: nat, abs: map<(nat, Path), nat>, before: seq<Context>,
                       mid: seq<Context>, after: seq<Context>, i: nat)
    requires |before| == |mid| && Only(c, mid, after) && Unlinked(mid[c], i, after[c]) && mid[c].msgs[i].key == k
    requires forall d: nat | d < |mid| :: ReleasedFor(db, k, stored, abs, before[d], mid[d], d)
    ensures ReleasedTo(db, k, stored, c, abs, before, after) && Unqueued(db, k, stored, abs, before[c], after[c], c)
  {
  }

  /** The accounts and the waiting messages when an entry has been removed after a distribution. */
  lemma ReleasedEntry(log: Log, before: seq<Context>, mid: seq<Context>, after: seq<Context>, next: nat, c: nat, i: nat,
                      discard: bool)
    requires Once(log, before, next) && AllIncoming(before, mid) && c < |before| && i < |before[c].msgs|
    requires i < |mid[c].msgs| && mid[c].msgs[i] == before[c].msgs[i] && mid[c].msgs[i].key.dir == In
    requires IncomingOk(Keys(mid[c].msgs)) && Only(c, mid, after) && Unlinked(mid[c], i, after[c])
    ensures Once(After(log, before[c].msgs[i].key.store, discard), after, next)
    ensures TakenOut(Keys(before[c].msgs), Keys(after[c].msgs), before[c].msgs[i].key.mid)
    ensures |after[c].msgs| >= i
  {
    IncomingWaits(before, mid);
    OnceReleased(log, before, mid, next, c, i, after[c], discard);
    IncomingRemoved(Keys(mid[c].msgs), i);
    assert Keys(mid[c].msgs)[i] == before[c].msgs[i].key && |Keys(after[c].msgs)| == |after[c].msgs|;
    assert StillIncoming(before, mid, c);
    SameIncomingWaits(before[c], mid[c]);
  }

  lemma SameIncomingWaits(s0: Context, s: Context)
    requires SameIncoming(s0, s)
    ensures forall id :: Waits(Keys(s.msgs), id) <==> Waits(Keys(s0.msgs), id)
  {
    var keys, keys0 := Keys(s.msgs), Keys(s0.msgs);
    assert forall k | 0 <= k < |keys0| :: keys[k] == s.msgs[..|s0.msgs|][k].key == keys0[k];
    forall id | Waits(keys0, id) ensures Waits(keys, id) {
      var k :| 0 <= k < |keys0| && keys0[k].dir == In && keys0[k].mid == id;
      assert keys[k] == keys0[k];
    }
  }

  /** What is known of an entry that waits. */
  lemma EntryFacts(db: Database, c: nat, i: nat)
    requires db.Valid() && c < |db.contexts| && i < |db.contexts[c].msgs| && db.contexts[c].msgs[i].key.dir == In
    ensures var k := db.contexts[c].msgs[i].key;
            && k.store in db.store && db.store[k.store].sourceMid == k.mid && db.store[k.store].retain == k.retain
            && k.qos == 2 && IncomingOk(Keys(db.contexts[c].msgs))
            && (db.store[k.store].topic.Some? ==> ValidTopic(db.store[k.store].topic.value))
  {
    EntryStored(db.store, db.contexts, db.tree.ret, db.held, c, i);
    assert Fine(db.limits, db.store, db.contexts, c);
    assert Keys(db.contexts[c].msgs)[i] == db.contexts[c].msgs[i].key;
  }

  method HandOnStored(db: Database, c: nat, i: nat, now: int)
    requires InOrder(db) && c < |db.contexts| && i < |db.contexts[c].msgs| && db.contexts[c].msgs[i].key.dir == In
    modifies db`store, db`storeList, db`storeCount, db`contexts, db`held, db`log, db.tree
    ensures db.Valid() && db.TreeValid() && db.held == old(db.held) && RetainedAs(db.tree.ret, db.born, db.log.reused)
    ensures AllIncoming(old(db.contexts), db.contexts) && i < |db.contexts[c].msgs|
            && db.contexts[c].msgs[i] == old(db.contexts)[c].msgs[i]
    ensures var k := old(db.contexts)[c].msgs[i].key;
            && k.store in old(db.store)
            && (forall d: nat | d < |db.contexts| ::
                  ReleasedFor(db, k, old(db.store)[k.store], db.tree.abs, old(db.contexts)[d], db.contexts[d], d))
            && db.log == After(old(db.log), k.store, old(db.store)[k.store].topic.None?)
            && db.tree.ret == RetainedBy(old(db.tree.ret), old(db.tree.at), k, old(db.store)[k.store])
    ensures db.tree.abs == old(db.tree.abs) && db.tree.subsOf == old(db.tree.subsOf)
  {
    hide Sound, DbOk, Alike, Once, Served, RetainedAfter, IncomingOk, RetainedAs;
    EntryFacts(db, c, i);
    var k := db.contexts[c].msgs[i].key;
    var stored := db.store[k.store];
    StoredAs(db, k.store);
    if stored.topic.Some? {
      db.MessagesQueue(k.store, stored.topic.value, stored.qos, k.retain, true, now);
      RetainedOn(old(db.tree.ret), old(db.tree.at), db.born, db.log.reused, stored.topic.value, k.retain, k.store);
      assert StillIncoming(old(db.contexts), db.contexts, c);
      assert db.contexts[c].msgs[i] == db.contexts[c].msgs[..|old(db.contexts)[c].msgs|][i];
    } else {
      NothingChanged(db.contexts);
      Note(db, db.log.(discarded := db.log.discarded + multiset{k.store}));
    }
  }

  /** An incoming message under a packet id waits for a place; or for its PUBREL. */
  predicate HeldBack(msgs: seq<Entry>, mid: nat) {
    exists i :: 0 <= i < |msgs| && msgs[i].key.dir == In && msgs[i].key.mid == mid && msgs[i].state == Queued
  }

  predicate AwaitsRelease(msgs: seq<Entry>, mid: nat) {
    exists i :: 0 <= i < |msgs| && msgs[i].key.dir == In && msgs[i].key.mid == mid && msgs[i].state == WaitForPubrel
  }

  /** Every incoming message that need not wait for a place any longer was answered with a PUBREC. */
  ghost predicate StartedAnswered(before: seq<Entry>, after: seq<Entry>, sent: seq<Packet>, sent': seq<Packet>,
                                  c: nat) {
    && |sent| <= |sent'|
    && forall mid: nat {:trigger AwaitsRelease(after, mid)} ::
         HeldBack(before, mid) && AwaitsRelease(after, mid) && !AwaitsRelease(before, mid) ==>
           Pubrec(c, mid) in sent'[|sent|..]
  }

  lemma NothingStarted(msgs: seq<Entry>, sent: seq<Packet>, c: nat)
    ensures StartedAnswered(msgs, msgs, sent, sent, c)
  {
  }

  lemma AnsweredFurther(s0: seq<Entry>, s1: seq<Entry>, s2: seq<Entry>, sent0: seq<Packet>, sent1: seq<Packet>,
                        sent2: seq<Packet>, c: nat)
    requires StartedAnswered(s0, s1, sent0, sent1, c) && OnlyPubrecs(sent1, sent2, c)
    requires forall mid: nat | AwaitsRelease(s2, mid) ::
               AwaitsRelease(s1, mid) || (|sent1| <= |sent2| && Pubrec(c, mid) in sent2[|sent1|..])
    ensures StartedAnswered(s0, s2, sent0, sent2, c)
  {
    hide HeldBack, AwaitsRelease;
    forall mid: nat | HeldBack(s0, mid) && AwaitsRelease(s2, mid) && !AwaitsRelease(s0, mid)
      ensures Pubrec(c, mid) in sent2[|sent0|..]
    {
      if AwaitsRelease(s1, mid) {
        var j: nat :| j < |sent1[|sent0|..]| && sent1[|sent0|..][j] == Pubrec(c, mid);
        assert sent2[|sent0|..][j] == sent2[..|sent1|][|sent0| + j] == sent1[|sent0| + j];
      } else {
        var j: nat :| j < |sent2[|sent1|..]| && sent2[|sent1|..][j] == Pubrec(c, mid);
        assert sent2[|sent0|..][|sent1| - |sent0| + j] == sent2[|sent1|..][j];
      }
    }
  }

  /** `sent` has grown by PUBRECs to client `c` only. */
  ghost predicate OnlyPubrecs(before: seq<Packet>, after: seq<Packet>, c: nat) {
    |before| <= |after| && after[..|before|] == before && forall j | |before| <= j < |after| ::
          after[j].Pubrec? && after[j].client == c
  }

  lemma OnlyPubrecsTrans(s0: seq<Packet>, s1: seq<Packet>, s2: seq<Packet>, c: nat)
    ensures OnlyPubrecs(s0, s0, c)
    ensures OnlyPubrecs(s0, s1, c) && OnlyPubrecs(s1, s2, c) ==> OnlyPubrecs(s0, s2, c)
  {
    if OnlyPubrecs(s0, s1, c) && OnlyPubrecs(s1, s2, c) {
      assert s2[..|s0|] == s2[..|s1|][..|s0|];
      assert forall j | |s0| <= j < |s1| :: s2[j] == s2[..|s1|][j];
    }
  }

  /** The first part of the loop: entry `i` may start if it is among the first, and an incoming one is answered then. */
  method StartQueued(db: Database, c: nat, i: nat, msgIndex: nat, now: int)
    requires InOrder(db) && c < |db.contexts| && i < |db.contexts[c].msgs|
    modifies db`contexts, db`sent
    ensures InOrder(db) && Only(c, old(db.contexts), db.contexts)
    ensures OnlyStarted(old(db.contexts)[c], db.contexts[c]) && |db.contexts[c].msgs| == |old(db.contexts)[c].msgs|
    ensures OnlyPubrecs(old(db.sent), db.sent, c)
    ensures forall cause | Starting(cause) :: AllFollow(old(db.contexts), db.contexts, c, cause)
    ensures forall mid: nat | AwaitsRelease(db.contexts[c].msgs, mid) ::
              AwaitsRelease(old(db.contexts)[c].msgs, mid)
              || (|old(db.sent)| <= |db.sent| && Pubrec(c, mid) in db.sent[|old(db.sent)|..])
  {
    hide Sound, DbOk, Database.TreeValid, Once, WaitsAlike, Follows, AllFollow, AwaitsRelease;
    StartAwaits(db.contexts[c].msgs, i, now);
    var e := db.contexts[c].msgs[i];
    db.StartEntry(c, i, msgIndex, now);
    forall cause | Starting(cause) ensures AllFollow(old(db.contexts), db.contexts, c, cause) {
      AllFollowOnly(old(db.contexts), db.contexts, c, cause);
    }
    db.TreeKept();
    KeysWait(old(db.contexts), db.contexts);
    OnceKept(db.log, old(db.contexts), db.contexts, db.nextStore, db.nextStore);
    if e.state == Queued && msgIndex <= db.limits.maxInflight && e.key.dir == In && e.key.qos == 2 {
      Send(db, Pubrec(c, e.key.mid));
    }
  }

  lemma StartAwaits(msgs: seq<Entry>, i: nat, now: int)
    requires i < |msgs|
    ensures forall mid: nat | AwaitsRelease(msgs[i := Started(msgs[i], now)], mid) ::
              AwaitsRelease(msgs, mid) || (msgs[i].key.dir == In && msgs[i].key.qos == 2 && msgs[i].key.mid == mid)
              || msgs[i].state != Queued
  {
    var r := msgs[i := Started(msgs[i], now)];
    forall mid: nat | AwaitsRelease(r, mid) && msgs[i].state == Queued
      ensures AwaitsRelease(msgs, mid)
              || (msgs[i].key.dir == In && msgs[i].key.qos == 2 && msgs[i].key.mid == mid)
    {
      var k :| 0 <= k < |r| && r[k].key.dir == In && r[k].key.mid == mid && r[k].state == WaitForPubrel;
      if k != i { assert msgs[k] == r[k]; }
    }
  }

  /** Fresh copies, and the loss of an entry, start nothing that waits for a PUBREL. */
  lemma LeftAwaits(before: seq<Entry>, mid: seq<Entry>, i: nat, limits: Limits)
    requires |before| <= |mid| && mid[..|before|] == before && i < |mid|
    requires forall k | |before| <= k < |mid| :: FreshCopy(mid[k])
    requires forall k | 0 <= k < |mid| && mid[k].key.dir == In :: mid[k].key.qos == 2
    ensures forall id: nat | AwaitsRelease(HeadPromoted(Removed(mid, i), limits), id) :: AwaitsRelease(before, id)
  {
    hide HeadPromoted, FreshCopy;
    var r := Removed(mid, i);
    assert forall k | 0 <= k < |r| :: r[k] == mid[if k < i then k else k + 1];
    HeadStartsDue(r, limits);
    forall id: nat | AwaitsRelease(HeadPromoted(r, limits), id) ensures AwaitsRelease(before, id) {
      var p := HeadPromoted(r, limits);
      var k :| 0 <= k < |p| && p[k].key.dir == In && p[k].key.mid == id && p[k].state == WaitForPubrel;
      var j := if k < i then k else k + 1;
      assert r[k] == p[k] == mid[j];
      assert j < |before| by {
        if j >= |before| { assert FreshCopy(mid[j]); IsOut(mid[j]); }
      }
      assert before[j] == mid[..|before|][j];
    }
  }

  lemma IsOut(e: Entry)
    requires FreshCopy(e)
    ensures e.key.dir == Out
  {
  }

  /** No incoming entry under `mid` among the first `i`. */
  predicate NoneAt(keys: seq<Key>, i: nat, mid: nat) {
    i <= |keys| && forall j | 0 <= j < i :: keys[j].dir == Out || keys[j].mid != mid
  }

  /** What one entry says about the packet ids that wait, before and after the release. */
  lemma EntryWaits(keys: seq<Key>, s: Context, i: nat, mid: nat)
    requires i < |s.msgs|
    ensures var k := s.msgs[i].key;
            && (k.dir == In && k.mid == mid ==> Waits(Keys(s.msgs), mid))
            && (k.dir == In && k.mid == mid ==> !TakenOut(keys, Keys(s.msgs), mid))
            && (!(k.dir == In && k.mid == mid) && NoneAt(Keys(s.msgs), i, mid) ==> NoneAt(Keys(s.msgs), i + 1, mid))
  {
    var k := s.msgs[i].key;
    assert Keys(s.msgs)[i] == k;
    if k.dir == In && k.mid == mid {
      assert Waits(Keys(s.msgs), mid);
    }
  }

  /** The release of the entry with key `k` shows in the accounts, in the retained messages and in all sessions. */
  twostate predicate ReleasedNow(db: Database, c: nat, mid: nat, k: Key)
    reads db, db.tree
  {
    && c < |old(db.contexts)| == |db.contexts|
    && k.mid == mid && k.dir == In && k.store in old(db.store) && old(db.store)[k.store].sourceMid == mid
    && k.store in db.born && SameMessage(old(db.store)[k.store], db.born[k.store])
    && db.born[k.store].retain == k.retain
    && (var stored := old(db.store)[k.store];
        && ReleasedTo(db, k, stored, c, db.tree.abs, old(db.contexts), db.contexts)
        && ReleasedRight(db, k, stored, c, db.tree.abs, old(db.contexts), db.contexts)
        && ReleasedOwn(db, k, stored, db.tree.abs, old(db.contexts)[c], db.contexts[c], c)
        && db.log == After(old(db.log), k.store, stored.topic.None?)
        && db.tree.ret == RetainedBy(old(db.tree.ret), old(db.tree.at), k, stored))
  }

  /** What happens in the session of the sender does not matter to the others. */
  lemma ReleasedApart(db: Database, k: Key, stored: Stored, c: nat, abs: map<(nat, Path), nat>, before: seq<Context>,
                      before': seq<Context>, after: seq<Context>, after': seq<Context>)
    requires ReleasedTo(db, k, stored, c, abs, before', after)
    requires Only(c, before, before') && Only(c, after, after')
    ensures ReleasedTo(db, k, stored, c, abs, before, after')
  {
    forall d: nat | d < |after'| && d != c ensures ReleasedFor(db, k, stored, abs, before[d], after'[d], d) {
      assert ReleasedFor(db, k, stored, abs, before'[d], after[d], d);
    }
  }

  /**
    `mqtt3_db_message_release` of an incoming message: the one entry under the packet id is released, if there is one.
  */
  method Release(db: Database, c: nat, mid: nat, now: int) returns (found: bool, ghost k: Key)
    requires InOrder(db) && c < |db.contexts|
    modifies db`store, db`storeList, db`storeCount, db`contexts, db`held, db`log, db`sent, db.tree
    ensures InOrder(db) && SamePeers(old(db.contexts), db.contexts) && db.held == old(db.held)
    ensures db.tree.abs == old(db.tree.abs) && db.tree.subsOf == old(db.tree.subsOf)
    ensures found <==> Waits(Keys(old(db.contexts)[c].msgs), mid)
    ensures TakenOut(Keys(old(db.contexts)[c].msgs), Keys(db.contexts[c].msgs), mid)
    ensures !found ==>
              db.log == old(db.log) && db.tree.ret == old(db.tree.ret) && Only(c, old(db.contexts), db.contexts)
                       && OnlyStarted(old(db.contexts)[c], db.contexts[c])
    ensures found ==> ReleasedNow(db, c, mid, k)
    ensures OnlyPubrecs(old(db.sent), db.sent, c)
    ensures AllFollow(old(db.contexts), db.contexts, c, Released(mid))
    ensures StartedAnswered(old(db.contexts)[c].msgs, db.contexts[c].msgs, old(db.sent), db.sent, c)
  {
    hide Sound, DbOk, Database.Valid, Database.TreeValid, Once, ReleasedTo, StillIncoming, Unlinked, After, RetainedBy,
         IncomingOk, OnlyPubrecs, TakenOut, Waits, ReleasedOwn, Unqueued, AllFollow, StartedAnswered, AwaitsRelease,
         ReleasedRight;
    AllFollowSame(db.contexts, c, Released(mid));
    NothingStarted(db.contexts[c].msgs, db.sent, c);
    var i, msgIndex := 0, 0;
    k := Key(0, 0, 0, false, In);
    found := false;
    ghost var keys := Keys(db.contexts[c].msgs);
    OnlyPubrecsTrans(db.sent, db.sent, db.sent, c);
    assert OnlyStarted(db.contexts[c], db.contexts[c]);
    while i < |db.contexts[c].msgs|
      invariant InOrder(db) && SamePeers(old(db.contexts), db.contexts) && db.held == old(db.held)
      invariant db.tree.abs == old(db.tree.abs) && db.tree.subsOf == old(db.tree.subsOf)
      invariant i <= |db.contexts[c].msgs| && OnlyPubrecs(old(db.sent), db.sent, c)
      invariant AllFollow(old(db.contexts), db.contexts, c, Released(mid))
      invariant StartedAnswered(old(db.contexts)[c].msgs, db.contexts[c].msgs, old(db.sent), db.sent, c)
      invariant !found ==>
                  OnlyStarted(old(db.contexts)[c], db.contexts[c]) && Only(c, old(db.contexts), db.contexts)
                  && NoneAt(keys, i, mid)
      invariant !found ==> db.log == old(db.log) && unchanged(db.tree) && db.store == old(db.store)
      invariant found ==>
                  Waits(keys, mid) && TakenOut(keys, Keys(db.contexts[c].msgs), mid) && ReleasedNow(db, c, mid, k)
      decreases !found, |db.contexts[c].msgs| - i
    {
      msgIndex := msgIndex + 1;
      ghost var contexts0, sent0 := db.contexts, db.sent;
      StartQueued(db, c, i, msgIndex, now);
      OnlyPubrecsTrans(old(db.sent), sent0, db.sent, c);
      AllFollowTrans(old(db.contexts), contexts0, db.contexts, c, Released(mid));
      AnsweredFurther(old(db.contexts)[c].msgs, contexts0[c].msgs, db.contexts[c].msgs, old(db.sent), sent0, db.sent,
                      c);
      if found {
        ReleasedApart(db, k, old(db.store)[k.store], c, db.tree.abs, old(db.contexts), old(db.contexts), contexts0,
                      db.contexts);
        ReleasedIsRight(db, k, old(db.store)[k.store], c, db.tree.abs, old(db.contexts), db.contexts);
        OwnStarts(db, k, old(db.store)[k.store], db.tree.abs, old(db.contexts)[c], contexts0[c], db.contexts[c], c);
      }
      EntryWaits(keys, db.contexts[c], i, mid);
      var key := db.contexts[c].msgs[i].key;
      if key.dir == In && key.mid == mid {
        contexts0 := db.contexts;
        k := ReleaseEntry(db, c, i, now);
        AllFollowTrans(old(db.contexts), contexts0, db.contexts, c, Released(mid));
        OnlyPubrecsTrans(db.sent, db.sent, db.sent, c);
        AnsweredFurther(old(db.contexts)[c].msgs, contexts0[c].msgs, db.contexts[c].msgs, old(db.sent), db.sent,
                        db.sent, c);
        OnlyOnce(c, old(db.contexts), contexts0, db.contexts);
        ReleasedApart(db, k, old(db.store)[k.store], c, db.tree.abs, old(db.contexts), contexts0, db.contexts,
                      db.contexts);
        ReleasedIsRight(db, k, old(db.store)[k.store], c, db.tree.abs, old(db.contexts), db.contexts);
        OwnStarts(db, k, old(db.store)[k.store], db.tree.abs, old(db.contexts)[c], contexts0[c], db.contexts[c], c);
        found := true;
      } else {
        i := i + 1;
      }
      if msgIndex > db.limits.maxInflight && found {
        return;
      }
    }
    if !found {
      NoneWaits(keys, mid);
    }
  }

  lemma OnlyOnce(c: nat, before: seq<Context>, before': seq<Context>, after: seq<Context>)
    requires c < |before| == |before'| == |after| && before' == before[c := before'[c]]
    ensures Only(c, before, before') && Only(c, after, after)
  {
    assert after == after[c := after[c]];
  }

  lemma NoneWaits(keys: seq<Key>, mid: nat)
    requires NoneAt(keys, |keys|, mid)
    ensures !Waits(keys, mid) && TakenOut(keys, keys, mid)
  {
  }

  /**
    `_mosquitto_handle_pubrel`, with the low bits of the first byte of the packet. A PUBCOMP answers even a repeated
    PUBREL, but only the first one hands the message on.
  */
  method HandlePubrel(db: Database, c: nat, mid: nat, mqtt311: bool, flags: nat, now: int)
      returns (rc: nat, found: bool, ghost k: Key)
    requires InOrder(db) && c < |db.contexts|
    modifies db`store, db`storeList, db`storeCount, db`contexts, db`held, db`log, db`sent, db.tree
    ensures InOrder(db) && SamePeers(old(db.contexts), db.contexts) && db.held == old(db.held)
    ensures db.tree.abs == old(db.tree.abs) && db.tree.subsOf == old(db.tree.subsOf)
    ensures rc == if mqtt311 && flags != 2 then 2 else 0
    ensures AllFollow(old(db.contexts), db.contexts, c, Released(mid))
    ensures rc != 0 ==>
              db.contexts == old(db.contexts) && db.store == old(db.store) && db.log == old(db.log)
              && db.sent == old(db.sent)
                        && db.tree.ret == old(db.tree.ret)
    ensures rc == 0 ==>
              && (found <==> Waits(Keys(old(db.contexts)[c].msgs), mid))
              && TakenOut(Keys(old(db.contexts)[c].msgs), Keys(db.contexts[c].msgs), mid)
              && (!found ==>
                    db.log == old(db.log) && db.tree.ret == old(db.tree.ret) && Only(c, old(db.contexts), db.contexts)
                             && OnlyStarted(old(db.contexts)[c], db.contexts[c]))
              && (found ==> ReleasedNow(db, c, mid, k))
              && db.sent != [] && db.sent[|db.sent| - 1] == Pubcomp(c, mid)
              && OnlyPubrecs(old(db.sent), db.sent[..|db.sent| - 1], c)
              && StartedAnswered(old(db.contexts)[c].msgs, db.contexts[c].msgs, old(db.sent),
                                 db.sent[..|db.sent| - 1], c)
  {
    hide InOrder, ReleasedTo, ReleasedOwn, OnlyPubrecs, TakenOut, Waits, After, RetainedBy, AllFollow,
         StartedAnswered, ReleasedRight;
    AllFollowSame(db.contexts, c, Released(mid));
    rc, found, k := 0, false, Key(0, 0, 0, false, In);
    if mqtt311 {
      if flags != 2 {
        return 2, found, k;
      }
    }
    found, k := Release(db, c, mid, now);
    ghost var sent := db.sent;
    Send(db, Pubcomp(c, mid));
    assert db.sent[..|db.sent| - 1] == sent;
  }

  /** `_mosquitto_handle_pubackcomp`: PUBACK and PUBCOMP end an outgoing message. */
  method HandlePubackcomp(db: Database, c: nat, mid: nat, now: int)
    requires InOrder(db) && c < |db.contexts|
    modifies db`store, db`storeList, db`storeCount, db`contexts
    ensures InOrder(db) && Only(c, old(db.contexts), db.contexts) && SameWaiting(old(db.contexts), db.contexts)
    ensures SamePeers(old(db.contexts), db.contexts)
    ensures Others(Keys(db.contexts[c].msgs), mid, Out) == Others(Keys(old(db.contexts)[c].msgs), mid, Out)
    ensures mid == 0 ==> db.contexts == old(db.contexts)
    ensures Follows(old(db.contexts)[c].msgs, db.contexts[c].msgs, Acknowledged(mid))
    ensures mid != 0 ==>
              && WindowStarted(db.contexts[c].msgs, db.limits.maxInflight)
              && exists v ::
                   DeletedUpTo(Keys(old(db.contexts)[c].msgs), Keys(db.contexts[c].msgs), v, mid, Out,
                               db.limits.maxInflight)
  {
    hide Sound, DbOk, Alike, Database.TreeValid, Once, SameWaiting, WindowStarted, DeletedUpTo, Others, RetainedAs,
         Follows;
    assert db.contexts == db.contexts[c := db.contexts[c]];
    FollowsSame(db.contexts[c].msgs, Acknowledged(mid));
    if mid != 0 {
      db.MessageDelete(c, mid, Out, now);
      ghost var before, after := Keys(old(db.contexts)[c].msgs), Keys(db.contexts[c].msgs);
      ghost var v :| DeletedUpTo(before, after, v, mid, Out, db.limits.maxInflight);
      OthersKept(before, after, v, mid, Out, db.limits.maxInflight);
      db.TreeKept();
    }
    OthersWait(old(db.contexts), db.contexts, c, mid);
    OnceKept(db.log, old(db.contexts), db.contexts, db.nextStore, db.nextStore);
  }

  predicate FirstOut(msgs: seq<Entry>, i: nat, mid: nat) {
    && i < |msgs| && msgs[i].key.dir == Out && msgs[i].key.mid == mid
    && forall j | 0 <= j < i :: msgs[j].key.dir != Out || msgs[j].key.mid != mid
  }

  /** The first outgoing entry under a packet id, if there is one, waits for its PUBCOMP; nothing else changes. */
  ghost predicate MarksFirst(before: seq<Entry>, after: seq<Entry>, mid: nat, now: int) {
    && (forall i: nat | FirstOut(before, i, mid) ::
          after == before[i := before[i].(state := WaitForPubcomp, timestamp := now)])
    && ((forall i: nat :: !FirstOut(before, i, mid)) ==> after == before)
  }

  lemma FirstMarked(before: seq<Entry>, after: seq<Entry>, mid: nat, now: int, found: bool)
    requires if found then exists i | 0 <= i < |before| ::
               && before[i].key.mid == mid && before[i].key.dir == Out
               && (forall j | 0 <= j < i :: before[j].key.mid != mid || before[j].key.dir != Out)
               && after == before[i := before[i].(state := WaitForPubcomp, timestamp := now)]
             else after == before && forall i | 0 <= i < |before| ::
                    before[i].key.mid != mid || before[i].key.dir != Out
    ensures MarksFirst(before, after, mid, now) && Follows(before, after, Confirming(mid))
  {
    hide Follows;
    FollowsEach(before, after, Confirming(mid));
    if found {
      var i: nat :| i < |before| && before[i].key.mid == mid && before[i].key.dir == Out
                    && (forall j | 0 <= j < i :: before[j].key.mid != mid || before[j].key.dir != Out)
                    && after == before[i := before[i].(state := WaitForPubcomp, timestamp := now)];
      assert FirstOut(before, i, mid) && forall j: nat | FirstOut(before, j, mid) :: j == i;
    }
  }

  /** `_mosquitto_handle_pubrec`: the PUBREL is sent even when the message is not known. */
  method HandlePubrec(db: Database, c: nat, mid: nat, now: int) returns (found: bool)
    requires InOrder(db) && c < |db.contexts|
    modifies db`contexts, db`sent
    ensures InOrder(db) && Only(c, old(db.contexts), db.contexts) && db.sent == old(db.sent) + [Pubrel(c, mid)]
    ensures SamePeers(old(db.contexts), db.contexts)
    ensures Keys(db.contexts[c].msgs) == Keys(old(db.contexts)[c].msgs)
    ensures found <==>
              exists i :: 0 <= i < |old(db.contexts)[c].msgs| && Answers(old(db.contexts)[c].msgs[i].key, mid, Out)
    ensures MarksFirst(old(db.contexts)[c].msgs, db.contexts[c].msgs, mid, now)
    ensures Follows(old(db.contexts)[c].msgs, db.contexts[c].msgs, Confirming(mid))
  {
    hide Sound, DbOk, Database.TreeValid, Once, SameWaiting, Follows, MarksFirst;
    found := db.MessageUpdate(c, mid, Out, WaitForPubcomp, now);
    FirstMarked(old(db.contexts)[c].msgs, db.contexts[c].msgs, mid, now, found);
    db.TreeKept();
    KeysWait(old(db.contexts), db.contexts);
    OnceKept(db.log, old(db.contexts), db.contexts, db.nextStore, db.nextStore);
    Send(db, Pubrel(c, mid));
  }
}
