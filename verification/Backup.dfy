/** A database of the broker that is saved when it stops, and restored from the file when it starts again. */
module Backup {
  import opened Sequences
  import opened Wrappers
  import opened Topics
  import opened Tree
  import opened Wire
  import opened Archive
  import opened Session
  import opened Accounts
  import opened Broker
  import opened Intake
  import Snapshot
  import Walk
  import Rebuild
  import Restore
  import Runs

  /** What the database does not say about clients and messages, but the file does. */
  datatype Details = Details(id: nat -> bytes, disconnected: nat -> nat, sourceId: nat -> bytes, payload: nat -> bytes)

  function DirectionCode(d: Direction): byte {
    if d.In? then 0 else 1
  }

  function StateCode(s: State): byte {
    match s
    case Invalid => 0
    case PublishQos0 => 1
    case PublishQos1 => 2
    case WaitForPuback => 3
    case PublishQos2 => 4
    case WaitForPubrec => 5
    case ResendPubrel => 6
    case WaitForPubrel => 7
    case ResendPubcomp => 8
    case WaitForPubcomp => 9
    case SendPubrec => 10
    case Queued => 11
  }

  /**
    Clients and messages with strings, numbers and payloads that have room in their fields, and characters of one byte
    each.
  */
  ghost predicate Sized(db: Database, d: Details)
    reads db, db.tree
  {
    && db.nextStore <= TWO64
    && (forall c: nat | c < |db.contexts| :: ClientSized(db.contexts[c], d, c))
    && (forall c: nat, e: nat | c < e < |db.contexts| :: d.id(c) != d.id(e))
    && (forall m | m in db.store :: MessageSized(db.store[m], d, m))
    && (forall k | k in db.tree.abs ::
          db.tree.abs[k] < 256 && (Full(k.1) ==> OneByteEach(FilterAt(k.1)) && |FilterAt(k.1)| <= 65535))
  }

  predicate ClientSized(s: Context, d: Details, c: nat) {
    && 0 < |d.id(c)| <= 65535 && 0 !in d.id(c) && s.lastMid < 65536 && d.disconnected(c) < TWO64
    && forall i | 0 <= i < |s.msgs| :: s.msgs[i].key.mid < 65536 && s.msgs[i].key.qos < 256
  }

  predicate MessageSized(s: Stored, d: Details, m: nat) {
    && |d.sourceId(m)| <= 65535 && 0 !in d.sourceId(m) && |d.payload(m)| == s.payloadlen < 4294000000
    && s.sourceMid < 65536 && s.qos < 256
    && (s.topic.Some? ==> |s.topic.value| <= 65535 && OneByteEach(s.topic.value))
  }

  // ----- the stored messages -----

  function MessageOf(s: Stored, d: Details, m: nat): Snapshot.Message
    requires MessageSized(s, d, m)
  {
    Snapshot.Message(d.sourceId(m), s.sourceMid, s.topic, s.qos, s.retain, d.payload(m))
  }

  function StoredOf(s: Stored, d: Details, m: nat): Snapshot.Stored
    requires MessageSized(s, d, m)
  {
    Snapshot.Stored(m, 0, s.refCount, |s.dests|, MessageOf(s, d, m))
  }

  function ListOf(list: seq<nat>, store: Store, d: Details): (r: seq<Snapshot.Stored>)
    requires forall m | m in list :: m in store && MessageSized(store[m], d, m)
  {
    seq(|list|, i requires 0 <= i < |list| => StoredOf(store[list[i]], d, list[i]))
  }

  /**
    A message that the file leaves out: one of the broker's own that no more than one reference holds and nobody was
    sent.
  */
  predicate LeftOut(s: Stored) {
    s.topic.Some? && Snapshot.StartsWith(s.topic.value, "$SYS") && s.refCount <= 1 && s.dests == []
  }

  lemma {:induction false} AtItsId(list: seq<nat>, store: Store, d: Details, m: nat)
    requires NoDups(list) && (forall x | x in list :: x in store && MessageSized(store[x], d, x)) && m in list
    ensures Walk.MessageAt(ListOf(list, store, d), m) == Some(MessageOf(store[m], d, m))
    ensures m in Snapshot.StoreOf(ListOf(list, store, d)) <==> !LeftOut(store[m])
  {
    hide MessageSized, OneByteEach;
    var n := |list| - 1;
    assert ListOf(list, store, d)[..n] == ListOf(list[..n], store, d);
    if list[n] == m {
      NotBefore(list[..n], store, d, m);
    } else {
      assert list == list[..n] + [list[n]];
      AtItsId(list[..n], store, d, m);
    }
  }

  lemma {:induction false} NotBefore(list: seq<nat>, store: Store, d: Details, m: nat)
    requires (forall x | x in list :: x in store && MessageSized(store[x], d, x)) && m !in list
    ensures m !in Snapshot.StoreOf(ListOf(list, store, d))
  {
    hide MessageSized, OneByteEach;
    if list != [] {
      var n := |list| - 1;
      assert ListOf(list, store, d)[..n] == ListOf(list[..n], store, d);
      NotBefore(list[..n], store, d, m);
    }
  }

  // ----- the clients -----

  function QueuedOf(e: Entry): Snapshot.Queued
    requires e.key.qos < 256
  {
    Snapshot.Queued(e.key.store, e.key.mid, e.key.qos, if e.key.retain then 1 else 0, DirectionCode(e.key.dir),
                    StateCode(e.state), if e.dup then 1 else 0)
  }

  function ClientOf(s: Context, d: Details, c: nat): Snapshot.Client
    requires ClientSized(s, d, c)
  {
    var msgs := seq(|s.msgs|, i requires 0 <= i < |s.msgs| => QueuedOf(s.msgs[i]));
    Snapshot.Client(Persistent(s.peer), d.disconnected(c), Snapshot.Session(d.id(c), s.lastMid, msgs))
  }

  function ClientsOf(contexts: seq<Context>, d: Details): seq<Snapshot.Client>
    requires forall c: nat | c < |contexts| :: ClientSized(contexts[c], d, c)
  {
    seq(|contexts|, c requires 0 <= c < |contexts| => ClientOf(contexts[c], d, c))
  }

  /** No session that is saved waits for a message that the file leaves out. */
  ghost predicate NoneLeftOut(db: Database, d: Details)
    reads db
  {
    forall c: nat, i: nat | c < |db.contexts| && Persistent(db.contexts[c].peer) && i < |db.contexts[c].msgs| ::
      db.contexts[c].msgs[i].key.store in db.store && !LeftOut(db.store[db.contexts[c].msgs[i].key.store])
  }

  /** Every retained message stands under its own topic and was published with the flag. */
  ghost predicate RetainedOwn(db: Database)
    reads db, db.tree
  {
    forall p | p in db.tree.ret ::
      var m := db.tree.ret[p];
      m in db.store && db.store[m].topic.Some? && db.store[m].retain && FullPath(db.store[m].topic.value) == p
  }

  // ----- a database in order can be saved -----

  lemma ListSized(db: Database, d: Details)
    requires db.Valid() && Sized(db, d)
    ensures forall m | m in db.storeList :: m in db.store && MessageSized(db.store[m], d, m)
    ensures NoDups(db.storeList) && forall m | m in db.store :: m in db.storeList && 0 < m < TWO64
  {
    hide MessageSized, ClientSized;
  }

  lemma StoreSaves(db: Database, d: Details)
    requires db.Valid() && Sized(db, d) && forall m | m in db.storeList ::
               m in db.store && MessageSized(db.store[m], d, m)
    ensures Snapshot.StoreFits(ListOf(db.storeList, db.store, d))
  {
    ListSized(db, d);
    var list := ListOf(db.storeList, db.store, d);
    hide ClientSized;
    forall i | 0 <= i < |list|
        ensures 0 < list[i].id < TWO64 && Snapshot.StringsFit(list[i].message) && list[i].message.sourceMid < 65536 {
      assert db.storeList[i] in db.storeList && MessageSized(db.store[db.storeList[i]], d, db.storeList[i]);
      StoredAs(db, db.storeList[i]);
    }
  }

  lemma ClientsSave(db: Database, d: Details)
    requires db.Valid() && Sized(db, d)
    ensures Snapshot.ClientsFit(ClientsOf(db.contexts, d))
  {
    hide MessageSized;
    var clients := ClientsOf(db.contexts, d);
    forall c: nat | c < |clients| ensures Snapshot.SessionFits(clients[c].session) && clients[c].disconnected < TWO64 {
      assert ClientSized(db.contexts[c], d, c);
      forall i | 0 <= i < |db.contexts[c].msgs| ensures db.contexts[c].msgs[i].key.store < TWO64 {
        EntryStored(db.store, db.contexts, db.tree.ret, db.held, c, i);
      }
    }
  }

  lemma SubsSave(db: Database, d: Details)
    requires db.TreeValid() && Sized(db, d)
    ensures Walk.SubsFit(db.tree.abs, ClientsOf(db.contexts, d))
  {
    hide MessageSized, ClientSized;
    forall k | k in db.tree.abs ensures k.0 < |db.contexts| && Proper(k.1) {
      assert Subscribed(db.tree.nodes, db.tree.at, k);
      db.tree.LeafClients(db.tree.at[k.1]);
    }
  }

  lemma RetainedSave(db: Database, d: Details)
    requires InOrder(db) && Sized(db, d) && forall m | m in db.storeList ::
               m in db.store && MessageSized(db.store[m], d, m)
    ensures Walk.RetainedFit(db.tree.ret, ListOf(db.storeList, db.store, d))
    ensures forall p | p in db.tree.ret ::
              db.tree.ret[p] in db.store && MessageSized(db.store[db.tree.ret[p]], d, db.tree.ret[p])
              && Walk.MessageAt(ListOf(db.storeList, db.store, d), db.tree.ret[p]) ==
                 Some(MessageOf(db.store[db.tree.ret[p]], d, db.tree.ret[p]))
    ensures Walk.AllOwn(db.tree.ret, ListOf(db.storeList, db.store, d)) <==> RetainedOwn(db)
  {
    ListSized(db, d);
    var list := ListOf(db.storeList, db.store, d);
    hide MessageSized, ClientSized, ListOf, Walk.MessageAt, FullPath, Sound, Once, DbOk;
    forall p | p in db.tree.ret
      ensures db.tree.ret[p] in db.store && 0 < db.tree.ret[p] < TWO64
      ensures var m := db.tree.ret[p];
              && Walk.MessageAt(list, m) == Some(MessageOf(db.store[m], d, m))
              && db.store[m].topic.Some? && ValidTopic(db.store[m].topic.value) && d.payload(m) != []
    {
      RetainedFacts(db, d, p);
      AtItsId(db.storeList, db.store, d, db.tree.ret[p]);
    }
  }

  lemma RetainedFacts(db: Database, d: Details, p: Path)
    requires InOrder(db) && Sized(db, d) && p in db.tree.ret
    ensures var m := db.tree.ret[p];
            m in db.store && m in db.storeList && db.store[m].topic.Some? && ValidTopic(db.store[m].topic.value)
                && d.payload(m) != []
    ensures db.log.reused[db.tree.ret[p]] == 0 ==>
              db.store[db.tree.ret[p]].retain && FullPath(db.store[db.tree.ret[p]].topic.value) == p
  {
    hide ClientSized, FullPath, Sound, Once;
    RetainedStored(db.store, db.contexts, db.tree.ret, db.held, p);
    StoredAs(db, db.tree.ret[p]);
    assert KeptAs(p, db.tree.ret[p], db.born, db.log.reused)
        && MessageSized(db.store[db.tree.ret[p]], d, db.tree.ret[p]);
  }

  /** Without an id that was used again, every retained message stands under its own topic. */
  lemma OwnWithoutReuse(db: Database, d: Details)
    requires InOrder(db) && Sized(db, d) && forall p | p in db.tree.ret :: db.log.reused[db.tree.ret[p]] == 0
    ensures RetainedOwn(db)
  {
    hide InOrder, FullPath;
    forall p | p in db.tree.ret
      ensures var m := db.tree.ret[p];
              m in db.store && db.store[m].topic.Some? && db.store[m].retain && FullPath(db.store[m].topic.value) == p
    {
      RetainedFacts(db, d, p);
    }
  }

  lemma QueuesSave(db: Database, d: Details)
    requires db.Valid() && Sized(db, d) && forall m | m in db.storeList ::
               m in db.store && MessageSized(db.store[m], d, m)
    ensures Snapshot.AllKept(ClientsOf(db.contexts, d), Snapshot.StoreOf(ListOf(db.storeList, db.store, d))) <==>
              NoneLeftOut(db, d)
  {
    ListSized(db, d);
    var clients, store := ClientsOf(db.contexts, d), Snapshot.StoreOf(ListOf(db.storeList, db.store, d));
    hide MessageSized, ClientSized, LeftOut, ListOf, Snapshot.StoreOf;
    forall c: nat, i: nat | c < |db.contexts| && i < |db.contexts[c].msgs|
      ensures var m := db.contexts[c].msgs[i].key.store;
              clients[c].session.msgs[i].store == m && m in db.store && (m in store <==> !LeftOut(db.store[m]))
    {
      EntryStored(db.store, db.contexts, db.tree.ret, db.held, c, i);
      AtItsId(db.storeList, db.store, d, db.contexts[c].msgs[i].key.store);
    }
  }

  // ----- messages that are retained under several topics -----

  /** Two topics retain the same message. */
  ghost predicate TwoTopics(db: Database, m: nat)
    reads db.tree
  {
    exists p, q :: p in db.tree.ret && q in db.tree.ret && p != q && db.tree.ret[p] == m && db.tree.ret[q] == m
  }

  /** The chunks that the tree is saved as, in the order of the walk. */
  ghost function Chunks(db: Database, d: Details): seq<Archive.Chunk>
    reads db, db.tree
    requires forall m | m in db.storeList :: m in db.store && MessageSized(db.store[m], d, m)
    requires forall c: nat | c < |db.contexts| :: ClientSized(db.contexts[c], d, c)
  {
    Walk.TreeChunks(db.tree.nodes, db.tree.path, db.tree.next, ClientsOf(db.contexts, d),
                    ListOf(db.storeList, db.store, d))
  }

  lemma ChunksCovered(db: Database, d: Details)
    requires InOrder(db) && Sized(db, d)
    requires forall m | m in db.storeList :: m in db.store && MessageSized(db.store[m], d, m)
    requires forall c: nat | c < |db.contexts| :: ClientSized(db.contexts[c], d, c)
    ensures Walk.Covered(Chunks(db, d), db.tree.abs, db.tree.ret, ClientsOf(db.contexts, d),
                         ListOf(db.storeList, db.store, d))
  {
    hide Sound, MessageSized, ClientSized, ListOf, Walk.TreeChunks, Walk.Covered, Sized, Once, RetainedAs, DbOk;
    SubsSave(db, d);
    Walk.TreeCovered(db.tree.nodes, db.tree.next, db.tree.path, db.tree.at, db.tree.abs, db.tree.ret, db.tree.subsOf,
                     ClientsOf(db.contexts, d), ListOf(db.storeList, db.store, d));
  }

  lemma NamedTwice(db: Database, d: Details, m: nat)
    requires InOrder(db) && Sized(db, d) && forall x | x in db.storeList ::
               x in db.store && MessageSized(db.store[x], d, x)
    ensures Walk.Twice(Chunks(db, d), m) ==> TwoTopics(db, m)
    ensures Walk.Goes(ListOf(db.storeList, db.store, d), m) && TwoTopics(db, m) ==> Walk.Twice(Chunks(db, d), m)
  {
    hide Sound, MessageSized, ClientSized, ListOf, Walk.MessageAt, Walk.TreeChunks, Snapshot.OfSys;
    var clients, list := ClientsOf(db.contexts, d), ListOf(db.storeList, db.store, d);
    SubsSave(db, d);
    Walk.TreeCovered(db.tree.nodes, db.tree.next, db.tree.path, db.tree.at, db.tree.abs, db.tree.ret, db.tree.subsOf,
                     clients, list);
    if Walk.Twice(Chunks(db, d), m) { NamedGoes(Chunks(db, d), db.tree.abs, db.tree.ret, clients, list, m); }
    if Walk.Goes(list, m) {
      Walk.TwiceRetained(db.tree.nodes, db.tree.next, db.tree.path, db.tree.at, db.tree.abs, db.tree.ret,
                         db.tree.subsOf, clients, list, m);
    }
  }

  lemma NamedGoes(cs: seq<Archive.Chunk>, abs: map<(nat, Path), nat>, ret: map<Path, nat>,
                  clients: seq<Snapshot.Client>, list: seq<Snapshot.Stored>, m: nat)
    requires Walk.Covered(cs, abs, ret, clients, list) && Walk.Twice(cs, m)
    ensures Walk.Goes(list, m)
  {
    hide Walk.Goes, Full, FilterAt, Walk.SubChunkOf, OneByteEach;
    var i: nat :| i < |cs| && cs[i] == RetainChunk(m);
    assert Walk.Stems(cs[i], abs, ret, clients, list);
    Rebuild.IsSub(clients);
  }

  /** Whether a session that is saved waits for a message. */
  ghost predicate SavedWaits(db: Database, m: nat)
    reads db
  {
    exists c: nat, i: nat :: c < |db.contexts| && Persistent(db.contexts[c].peer) && i < |db.contexts[c].msgs|
                             && db.contexts[c].msgs[i].key.store == m
  }

  lemma {:induction false} RefsInQueue(msgs: seq<Snapshot.Queued>, m: nat)
    ensures Snapshot.RefsIn(msgs, m) > 0 <==> exists i :: 0 <= i < |msgs| && msgs[i].store == m
  {
    if msgs != [] {
      var n := |msgs| - 1;
      RefsInQueue(msgs[..n], m);
      if i :| 0 <= i < |msgs| && msgs[i].store == m { assert i < n ==> msgs[..n][i] == msgs[i]; }
    }
  }

  lemma {:induction false} RefsInSessions(clients: seq<Snapshot.Client>, m: nat)
    ensures Snapshot.QueueRefs(Snapshot.Saved(clients), m) > 0 <==>
              exists c :: 0 <= c < |clients| && clients[c].persistent && Snapshot.RefsIn(clients[c].session.msgs, m) > 0
  {
    hide Snapshot.RefsIn;
    if clients != [] {
      var n := |clients| - 1;
      var before := Snapshot.Saved(clients[..n]);
      RefsInSessions(clients[..n], m);
      if clients[n].persistent {
        assert (before + [clients[n].session])[..|before|] == before;
      } else {
        assert before + [] == before;
      }
      if c :| 0 <= c < |clients| && clients[c].persistent && Snapshot.RefsIn(clients[c].session.msgs, m) > 0 {
        assert c < n ==> clients[..n][c] == clients[c];
      }
    }
  }

  lemma WaitsSaved(db: Database, d: Details, m: nat)
    requires Sized(db, d)
    ensures Snapshot.QueueRefs(Snapshot.Saved(ClientsOf(db.contexts, d)), m) > 0 <==> SavedWaits(db, m)
  {
    hide MessageSized, Snapshot.Saved, Snapshot.QueueRefs, Snapshot.RefsIn, Persistent;
    var clients := ClientsOf(db.contexts, d);
    RefsInSessions(clients, m);
    forall c: nat | c < |clients|
      ensures clients[c].persistent == Persistent(db.contexts[c].peer)
      ensures Snapshot.RefsIn(clients[c].session.msgs, m) > 0 <==>
                exists i: nat :: i < |db.contexts[c].msgs| && db.contexts[c].msgs[i].key.store == m
    {
      assert ClientSized(db.contexts[c], d, c);
      var msgs := clients[c].session.msgs;
      RefsInQueue(msgs, m);
      assert forall i | 0 <= i < |msgs| :: msgs[i].store == db.contexts[c].msgs[i].key.store;
    }
  }

  // ----- stopping and starting again -----

  /** Every message that two topics retain is one that a saved session waits for. */
  ghost predicate TwiceHeld(db: Database)
    reads db, db.tree
  {
    forall m | TwoTopics(db, m) :: SavedWaits(db, m)
  }

  lemma NothingMissed(db: Database, d: Details)
    requires InOrder(db) && Sized(db, d) && TwiceHeld(db) && forall x | x in db.storeList ::
               x in db.store && MessageSized(db.store[x], d, x)
    ensures Rebuild.AllThere(Chunks(db, d), ListOf(db.storeList, db.store, d),
                             Snapshot.Saved(ClientsOf(db.contexts, d)))
  {
    hide InOrder, MessageSized, ClientSized, ListOf, Walk.TreeChunks, Walk.Twice, Snapshot.Saved, TwoTopics, SavedWaits,
         Snapshot.QueueRefs;
    forall m: nat | Walk.Twice(Chunks(db, d), m)
      ensures Snapshot.QueueRefs(Snapshot.Saved(ClientsOf(db.contexts, d)), m) > 0
    {
      NamedTwice(db, d, m);
      WaitsSaved(db, d, m);
    }
    Rebuild.AllThereUnlessTwice(Chunks(db, d), ListOf(db.storeList, db.store, d),
                                Snapshot.Saved(ClientsOf(db.contexts, d)));
  }

  /** Without an id that was used again, no message is retained under two topics. */
  lemma NoneTwiceWithoutReuse(db: Database)
    requires RetainedOwn(db)
    ensures forall m :: !TwoTopics(db, m)
  {
    hide FullPath;
  }

  lemma WithoutReuse(db: Database, d: Details)
    requires InOrder(db) && Sized(db, d) && forall p | p in db.tree.ret :: db.log.reused[db.tree.ret[p]] == 0
    ensures RetainedOwn(db) && TwiceHeld(db)
  {
    hide InOrder, Sized, RetainedOwn, TwoTopics;
    OwnWithoutReuse(db, d);
    NoneTwiceWithoutReuse(db);
  }

  /** A retained message under its own topic comes back, if the topic does not begin with a '$'. */
  lemma OwnComesBack(db: Database, d: Details, p: Path)
    requires InOrder(db) && Sized(db, d) && RetainedOwn(db) && p in db.tree.ret && Plain(p)
             && forall x | x in db.storeList :: x in db.store && MessageSized(db.store[x], d, x)
    ensures Rebuild.ComesBack(Chunks(db, d), ListOf(db.storeList, db.store, d), p, db.tree.ret[p])
  {
    hide Sound, MessageSized, ClientSized, ListOf, Walk.MessageAt, Walk.TreeChunks, Walk.Covered, FullPath, Tokens,
         Rebuild.ComesBack;
    var clients, list, m := ClientsOf(db.contexts, d), ListOf(db.storeList, db.store, d), db.tree.ret[p];
    RetainedSave(db, d);
    SubsSave(db, d);
    FullPathLabels(db.store[m].topic.value);
    PlainNotSys(db.store[m].topic.value);
    Walk.TreeCovered(db.tree.nodes, db.tree.next, db.tree.path, db.tree.at, db.tree.abs, db.tree.ret, db.tree.subsOf,
                     clients, list);
    Rebuild.OwnComesBack(Chunks(db, d), db.tree.abs, db.tree.ret, clients, list, p);
  }

  lemma AllOwnComeBack(db: Database, d: Details)
    requires InOrder(db) && Sized(db, d) && RetainedOwn(db) && (forall p | p in db.tree.ret :: Plain(p))
             && forall x | x in db.storeList :: x in db.store && MessageSized(db.store[x], d, x)
    ensures forall p | p in db.tree.ret ::
              Rebuild.ComesBack(Chunks(db, d), ListOf(db.storeList, db.store, d), p, db.tree.ret[p])
  {
    assert forall c: nat | c < |db.contexts| :: ClientSized(db.contexts[c], d, c);
    hide *;
    forall p | p in db.tree.ret
      ensures Rebuild.ComesBack(Chunks(db, d), ListOf(db.storeList, db.store, d), p, db.tree.ret[p])
    {
      OwnComesBack(db, d, p);
    }
  }

  /** The path of a topic without a '$' at its beginning. */
  predicate Plain(p: Path) {
    Labels(p) != [] && Labels(p)[0] == ""
  }

  lemma PlainNotSys(topic: string)
    requires Tokens(topic)[0] == ""
    ensures !Snapshot.StartsWith(topic, "$SYS")
  {
    FirstLevel(topic);
    assert "$SYS"[0] == '$';
    if |topic| >= 4 { assert topic[..4][0] == topic[0]; }
  }

  // ----- what has come back, in terms of the database -----

  /** The direction and the state that a number stands for (`lib/mosquitto_internal.h:73-91`). */
  function DirectionOf(code: byte): Option<Direction> {
    if code == 0 then Some(In) else if code == 1 then Some(Out) else None
  }

  function StateOf(code: byte): Option<State> {
    match code
    case 0 => Some(Invalid)
    case 1 => Some(PublishQos0)
    case 2 => Some(PublishQos1)
    case 3 => Some(WaitForPuback)
    case 4 => Some(PublishQos2)
    case 5 => Some(WaitForPubrec)
    case 6 => Some(ResendPubrel)
    case 7 => Some(WaitForPubrel)
    case 8 => Some(ResendPubcomp)
    case 9 => Some(WaitForPubcomp)
    case 10 => Some(SendPubrec)
    case 11 => Some(Queued)
    case _ => None
  }

  /** The queue entry that a restored one is; its time is 0. */
  function EntryOf(q: Snapshot.Queued): Option<Entry> {
    if DirectionOf(q.direction).None? || StateOf(q.state).None? then None
    else Some(Entry(Key(q.store, q.mid, q.qos as nat, q.retain != 0, DirectionOf(q.direction).value),
                    StateOf(q.state).value, q.dup != 0, 0))
  }

  lemma EntryBack(e: Entry)
    requires e.key.qos < 256
    ensures EntryOf(QueuedOf(e)) == Some(e.(timestamp := 0))
  {
  }

  /** Session `i` is that of client `c`: its id, its last packet id, and its queue in order, but for the times. */
  predicate SessionBack(s: Context, id: bytes, session: Snapshot.Session) {
    && session.id == id && session.lastMid == s.lastMid && |session.msgs| == |s.msgs|
    && forall k | 0 <= k < |s.msgs| :: EntryOf(session.msgs[k]) == Some(s.msgs[k].(timestamp := 0))
  }

  /** A session that outlives connections. */
  predicate Lasting(s: Context) {
    s.peer.named && !s.peer.clean
  }

  /** Every session that outlives connections is there once, and no other one. */
  ghost predicate SessionsBack(contexts: seq<Context>, d: Details, sessions: seq<Snapshot.Session>) {
    && (forall c: nat | c < |contexts| && Lasting(contexts[c]) :: IsBack(contexts[c], d.id(c), sessions))
    && (forall i: nat | i < |sessions| :: IsSomeones(sessions[i], contexts, d))
    && (forall i, j | 0 <= i < j < |sessions| :: sessions[i].id != sessions[j].id)
  }

  ghost predicate IsBack(s: Context, id: bytes, sessions: seq<Snapshot.Session>) {
    exists i: nat :: i < |sessions| && SessionBack(s, id, sessions[i])
  }

  ghost predicate IsSomeones(session: Snapshot.Session, contexts: seq<Context>, d: Details) {
    exists c: nat :: c < |contexts| && Lasting(contexts[c]) && SessionBack(contexts[c], d.id(c), session)
  }

  /** Their subscriptions are there with their QoS, and no others. */
  ghost predicate SubscriptionsBack(contexts: seq<Context>, d: Details, abs: map<(nat, Path), nat>,
                                    sessions: seq<Snapshot.Session>, abs': map<(nat, Path), nat>) {
    && (forall c: nat, p | (c, p) in abs && c < |contexts| && Lasting(contexts[c]) ::
          exists i: nat :: i < |sessions| && sessions[i].id == d.id(c) && (i, p) in abs' && abs'[(i, p)] == abs[(c, p)])
    && (forall i: nat, p | (i, p) in abs' ::
          exists c: nat :: c < |contexts| && Lasting(contexts[c]) && (c, p) in abs && i < |sessions|
                           && sessions[i].id == d.id(c))
  }

  predicate UnderSys(topic: Option<string>) {
    topic.Some? && |topic.value| >= 4 && topic.value[..4] == "$SYS"
  }

  /** A message is as it was; the flag of one of the broker's own is cleared. */
  predicate MessageBack(s: Stored, d: Details, m: nat, message: Snapshot.Message) {
    && message.topic == s.topic && message.qos as nat == s.qos && message.sourceMid == s.sourceMid
    && message.retain == (s.retain && !UnderSys(s.topic))
    && message.sourceId == d.sourceId(m) && message.payload == d.payload(m)
  }

  /**
    The messages that are there: not those of the broker's own that at most one reference held and nobody was sent, and
    of those that were retained only those that a saved session waits for or that are retained again.
  */
  ghost predicate MessagesBack(db: Database, d: Details, store: map<nat, Snapshot.Message>, ret: map<Path, nat>)
    reads db, db.tree
  {
    && (forall m | m in store :: m in db.store && MessageBack(db.store[m], d, m, store[m]))
    && (forall m | m in db.store ::
          m in store <==>
             && !(UnderSys(db.store[m].topic) && db.store[m].refCount <= 1 && db.store[m].dests == [])
             && (SavedWaits(db, m) || UnderSys(db.store[m].topic) || m !in db.tree.ret.Values || m in ret.Values))
  }

  /** Clients with room in their fields, and with different ids. */
  ghost predicate AllSized(contexts: seq<Context>, d: Details) {
    && (forall c: nat | c < |contexts| :: ClientSized(contexts[c], d, c))
    && forall c: nat, e: nat | c < e < |contexts| :: d.id(c) != d.id(e)
  }

  lemma SessionsComeBack(contexts: seq<Context>, d: Details)
    requires (forall c: nat | c < |contexts| :: ClientSized(contexts[c], d, c)) && AllSized(contexts, d)
    ensures SessionsBack(contexts, d, Snapshot.Saved(ClientsOf(contexts, d)))
  {
    var sessions := Snapshot.Saved(ClientsOf(contexts, d));
    hide ClientSized, ClientsOf, SessionBack, Snapshot.Saved, Lasting, AllSized;
    forall c: nat | c < |contexts| && Lasting(contexts[c]) ensures IsBack(contexts[c], d.id(c), sessions) {
      var i := HasSession(contexts, d, c);
    }
    forall i: nat | i < |sessions| ensures IsSomeones(sessions[i], contexts, d) {
      var c := IsSession(contexts, d, i);
    }
    ClientFacts(contexts, d);
    Snapshot.SavedDistinct(ClientsOf(contexts, d));
  }

  lemma HasSession(contexts: seq<Context>, d: Details, c: nat) returns (i: nat)
    requires (forall e: nat | e < |contexts| :: ClientSized(contexts[e], d, e)) && AllSized(contexts, d)
    requires c < |contexts| && Lasting(contexts[c])
    ensures var sessions := Snapshot.Saved(ClientsOf(contexts, d));
            i < |sessions| && SessionBack(contexts[c], d.id(c), sessions[i])
  {
    var clients := ClientsOf(contexts, d);
    ClientFacts(contexts, d);
    OneSessionBack(contexts[c], d, c);
    hide ClientSized, SessionBack, Snapshot.Saved, ClientOf, AllSized;
    Snapshot.SavedHas(clients, c);
    i := Snapshot.IndexOf(Snapshot.Saved(clients), clients[c].session.id);
  }

  lemma IsSession(contexts: seq<Context>, d: Details, i: nat) returns (c: nat)
    requires (forall e: nat | e < |contexts| :: ClientSized(contexts[e], d, e)) && AllSized(contexts, d)
    requires i < |Snapshot.Saved(ClientsOf(contexts, d))|
    ensures c < |contexts| && Lasting(contexts[c])
            && SessionBack(contexts[c], d.id(c), Snapshot.Saved(ClientsOf(contexts, d))[i])
  {
    var clients := ClientsOf(contexts, d);
    ClientFacts(contexts, d);
    hide SessionBack, Snapshot.Saved, Lasting, AllSized;
    Snapshot.SavedIds(clients, i);
    c :| 0 <= c < |clients| && clients[c].persistent && clients[c].session == Snapshot.Saved(clients)[i];
    OneSessionBack(contexts[c], d, c);
  }

  lemma ClientFacts(contexts: seq<Context>, d: Details)
    requires (forall c: nat | c < |contexts| :: ClientSized(contexts[c], d, c)) && AllSized(contexts, d)
    ensures var clients := ClientsOf(contexts, d);
            && (forall c: nat | c < |contexts| ::
                  clients[c].session.id == d.id(c) && (clients[c].persistent <==> Lasting(contexts[c])))
            && forall c: nat, e: nat | c < e < |clients| :: clients[c].session.id != clients[e].session.id
  {
  }

  lemma OneSessionBack(s: Context, d: Details, c: nat)
    requires ClientSized(s, d, c)
    ensures SessionBack(s, d.id(c), ClientOf(s, d, c).session)
  {
    hide QueuedOf, EntryOf;
    forall k | 0 <= k < |s.msgs|
        ensures EntryOf(ClientOf(s, d, c).session.msgs[k]) == Some(s.msgs[k].(timestamp := 0)) {
      EntryBack(s.msgs[k]);
    }
  }

  lemma SubscriptionsComeBack(contexts: seq<Context>, d: Details, abs: map<(nat, Path), nat>,
                              abs': map<(nat, Path), nat>)
    requires (forall c: nat | c < |contexts| :: ClientSized(contexts[c], d, c)) && AllSized(contexts, d)
    requires Rebuild.Renamed(abs, ClientsOf(contexts, d), abs')
    ensures SubscriptionsBack(contexts, d, abs, Snapshot.Saved(ClientsOf(contexts, d)), abs')
  {
    var clients := ClientsOf(contexts, d);
    var sessions := Snapshot.Saved(clients);
    ClientFacts(contexts, d);
    hide ClientSized, Snapshot.Saved, ClientOf;
    forall c: nat | c < |contexts| && Lasting(contexts[c])
      ensures Rebuild.NewIndex(clients, c) < |sessions| && sessions[Rebuild.NewIndex(clients, c)].id == d.id(c)
    {
      Snapshot.SavedHas(clients, c);
    }
  }

  lemma MessagesComeBack(db: Database, d: Details)
    requires InOrder(db) && Sized(db, d)
    requires forall m | m in db.storeList :: m in db.store && MessageSized(db.store[m], d, m)
    requires forall c: nat | c < |db.contexts| :: ClientSized(db.contexts[c], d, c)
    ensures var clients, list := ClientsOf(db.contexts, d), ListOf(db.storeList, db.store, d);
            MessagesBack(db, d, Restore.StoreAfter(Chunks(db, d), list, clients), Rebuild.RetOf(Chunks(db, d), list))
  {
    hide *;
    EachComesBack(db, d);
    AllComeBack(db, d, Chunks(db, d), ClientsOf(db.contexts, d), ListOf(db.storeList, db.store, d));
  }

  lemma AllComeBack(db: Database, d: Details, cs: seq<Archive.Chunk>, clients: seq<Snapshot.Client>,
                    list: seq<Snapshot.Stored>)
    requires forall m: nat :: OneComesBack(db, d, cs, clients, list, m)
    ensures MessagesBack(db, d, Restore.StoreAfter(cs, list, clients), Rebuild.RetOf(cs, list))
  {
    hide MessageBack, UnderSys, SavedWaits, Snapshot.StoreOf, Snapshot.QueueRefs, Snapshot.Saved, Rebuild.RetOf;
    var store, ret := Restore.StoreAfter(cs, list, clients), Rebuild.RetOf(cs, list);
    forall m | m in store ensures m in db.store && MessageBack(db.store[m], d, m, store[m]) {
      assert OneComesBack(db, d, cs, clients, list, m);
    }
    forall m | m in db.store
      ensures m in store <==>
                && !(UnderSys(db.store[m].topic) && db.store[m].refCount <= 1 && db.store[m].dests == [])
                && (SavedWaits(db, m) || UnderSys(db.store[m].topic) || m !in db.tree.ret.Values || m in ret.Values)
    {
      assert OneComesBack(db, d, cs, clients, list, m);
    }
  }

  /** What becomes of message `m`, before the retained messages are looked at. */
  ghost predicate OneComesBack(db: Database, d: Details, cs: seq<Archive.Chunk>, clients: seq<Snapshot.Client>,
                               list: seq<Snapshot.Stored>, m: nat)
    reads db, db.tree
  {
    var store := Snapshot.StoreOf(list);
    && (m in store ==> m in db.store && MessageBack(db.store[m], d, m, store[m]))
    && (m in db.store ==>
          && (m in store <==> !(UnderSys(db.store[m].topic) && db.store[m].refCount <= 1 && db.store[m].dests == []))
          && (RetainChunk(m) in cs <==> m in db.tree.ret.Values && !UnderSys(db.store[m].topic)))
    && (Snapshot.QueueRefs(Snapshot.Saved(clients), m) > 0 <==> SavedWaits(db, m))
  }

  lemma EachComesBack(db: Database, d: Details)
    requires InOrder(db) && Sized(db, d)
    requires forall m | m in db.storeList :: m in db.store && MessageSized(db.store[m], d, m)
    requires forall c: nat | c < |db.contexts| :: ClientSized(db.contexts[c], d, c)
    ensures forall m: nat :: OneComesBack(db, d, Chunks(db, d), ClientsOf(db.contexts, d),
                                          ListOf(db.storeList, db.store, d), m)
  {
    hide *;
    forall m: nat ensures OneComesBack(db, d, Chunks(db, d), ClientsOf(db.contexts, d),
                                       ListOf(db.storeList, db.store, d), m) {
      ComesBackIfWritten(db, d, m);
    }
  }

  lemma ComesBackIfWritten(db: Database, d: Details, m: nat)
    requires InOrder(db) && Sized(db, d)
    requires forall x | x in db.storeList :: x in db.store && MessageSized(db.store[x], d, x)
    requires forall c: nat | c < |db.contexts| :: ClientSized(db.contexts[c], d, c)
    ensures OneComesBack(db, d, Chunks(db, d), ClientsOf(db.contexts, d), ListOf(db.storeList, db.store, d), m)
  {
    ListSized(db, d);
    hide InOrder, Sized, MessageSized, ClientSized, ListOf, ClientsOf, Snapshot.StoreOf, Chunks, SavedWaits,
         Snapshot.QueueRefs, Snapshot.Saved, MessageBack, UnderSys;
    WaitsSaved(db, d, m);
    if m in db.store {
      MessageComesBack(db.storeList, db.store, d, m);
      IsNamed(db, d, m);
    } else if m in Snapshot.StoreOf(ListOf(db.storeList, db.store, d)) {
      StoredOnly(db.storeList, db.store, d, m);
    }
  }

  lemma {:induction false} StoredOnly(list: seq<nat>, store: Store, d: Details, m: nat)
    requires (forall x | x in list :: x in store && MessageSized(store[x], d, x))
             && m in Snapshot.StoreOf(ListOf(list, store, d))
    ensures m in list
  {
    hide MessageSized;
    if m !in list { NotBefore(list, store, d, m); }
  }

  lemma MessageComesBack(list: seq<nat>, store: Store, d: Details, m: nat)
    requires NoDups(list) && (forall x | x in list :: x in store && MessageSized(store[x], d, x)) && m in list
    ensures var back := Snapshot.StoreOf(ListOf(list, store, d));
            && (m in back <==> !(UnderSys(store[m].topic) && store[m].refCount <= 1 && store[m].dests == []))
            && (m in back ==> MessageBack(store[m], d, m, back[m]))
  {
    AtItsId(list, store, d, m);
    var stored := ListOf(list, store, d);
    var i: nat :| i < |list| && list[i] == m;
    assert stored[i] == StoredOf(store[m], d, m);
    if m in Snapshot.StoreOf(stored) {
      assert forall a, b | 0 <= a < b < |stored| :: stored[a].id != stored[b].id;
      Snapshot.StoreOfKeys(stored, i);
    }
  }

  lemma GoesUnlessSys(db: Database, d: Details, m: nat)
    requires InOrder(db) && Sized(db, d) && m in db.store
    requires forall x | x in db.storeList :: x in db.store && MessageSized(db.store[x], d, x)
    ensures Walk.Goes(ListOf(db.storeList, db.store, d), m) <==> !UnderSys(db.store[m].topic)
  {
    ListSized(db, d);
    hide InOrder, Sized, MessageSized, ListOf, Walk.MessageAt;
    AtItsId(db.storeList, db.store, d, m);
  }

  /** A message is named by a chunk if it is retained, and not one of the broker's own. */
  lemma IsNamed(db: Database, d: Details, m: nat)
    requires InOrder(db) && Sized(db, d) && m in db.store
    requires forall x | x in db.storeList :: x in db.store && MessageSized(db.store[x], d, x)
    requires forall c: nat | c < |db.contexts| :: ClientSized(db.contexts[c], d, c)
    ensures RetainChunk(m) in Chunks(db, d) <==> m in db.tree.ret.Values && !UnderSys(db.store[m].topic)
  {
    hide *;
    GoesUnlessSys(db, d, m);
    ChunksCovered(db, d);
    Rebuild.IsNamed(Chunks(db, d), db.tree.abs, db.tree.ret, ClientsOf(db.contexts, d),
                    ListOf(db.storeList, db.store, d), m);
  }

  /** How the broker starts again: refused, if the file leaves out what it needs, or crashed, or as it should. */
  ghost function EndOfRestart(db: Database, d: Details): Restore.Ending
    reads db, db.tree
    requires forall m | m in db.storeList :: m in db.store && MessageSized(db.store[m], d, m)
    requires forall c: nat | c < |db.contexts| :: ClientSized(db.contexts[c], d, c)
  {
    if !NoneLeftOut(db, d) then Restore.Ends(1)
    else if Rebuild.AllThere(Chunks(db, d), ListOf(db.storeList, db.store, d),
                             Snapshot.Saved(ClientsOf(db.contexts, d)))
    then Restore.Ends(0)
    else Restore.Crashes
  }

  lemma CanBeSaved(db: Database, d: Details)
    requires InOrder(db) && Sized(db, d)
    ensures forall m | m in db.storeList :: m in db.store && MessageSized(db.store[m], d, m)
    ensures forall c: nat | c < |db.contexts| :: ClientSized(db.contexts[c], d, c)
    ensures db.tree.Valid() && 0 < db.nextStore <= TWO64
  {
    hide MessageSized, ClientSized;
  }

  lemma WhatIsSaved(db: Database, d: Details)
    requires InOrder(db) && Sized(db, d)
    requires forall m | m in db.storeList :: m in db.store && MessageSized(db.store[m], d, m)
    requires forall c: nat | c < |db.contexts| :: ClientSized(db.contexts[c], d, c)
    ensures var clients, list := ClientsOf(db.contexts, d), ListOf(db.storeList, db.store, d);
            && Snapshot.StoreFits(list) && Snapshot.ClientsFit(clients) && Walk.SubsFit(db.tree.abs, clients)
            && Walk.RetainedFit(db.tree.ret, list)
            && Chunks(db, d) == Walk.TreeChunks(db.tree.nodes, db.tree.path, db.tree.next, clients, list)
            && Restore.EndAfter(Chunks(db, d), list, clients) == EndOfRestart(db, d)
            && (TwiceHeld(db) ==> (EndOfRestart(db, d) == Restore.Ends(0) <==> NoneLeftOut(db, d))
                                  && EndOfRestart(db, d) != Restore.Crashes)
    ensures (forall p | p in db.tree.ret :: db.log.reused[db.tree.ret[p]] == 0) ==> RetainedOwn(db) && TwiceHeld(db)
  {
    hide MessageSized, ClientSized, Once, Sound, RetainedOwn, TwiceHeld, Rebuild.AllThere, Snapshot.AllKept,
         NoneLeftOut;
    StoreSaves(db, d);
    ClientsSave(db, d);
    SubsSave(db, d);
    RetainedSave(db, d);
    QueuesSave(db, d);
    hide *;
    if TwiceHeld(db) { NothingMissed(db, d); }
    if forall p | p in db.tree.ret :: db.log.reused[db.tree.ret[p]] == 0 { WithoutReuse(db, d); }
  }

  lemma RetainedBack(db: Database, d: Details)
    requires InOrder(db) && Sized(db, d)
    requires forall m | m in db.storeList :: m in db.store && MessageSized(db.store[m], d, m)
    requires forall c: nat | c < |db.contexts| :: ClientSized(db.contexts[c], d, c)
    ensures RetainedOwn(db) && (forall p | p in db.tree.ret :: Plain(p)) ==>
              forall p | p in db.tree.ret ::
                Rebuild.ComesBack(Chunks(db, d), ListOf(db.storeList, db.store, d), p, db.tree.ret[p])
  {
    hide *;
    if RetainedOwn(db) && forall p | p in db.tree.ret :: Plain(p) { AllOwnComeBack(db, d); }
  }

  /**
    The broker is stopped after any run, and started from the file. That works just when no saved session waits for a
    message that the file leaves out, and no retained message is named again after the restore has freed it; the latter
    is so if each message that two topics retain is one that a saved session waits for. Then all persistent sessions are
    there again with their queues, and with their subscriptions, and all reference counts are right. Retained messages
    are the same just when each comes back; without a '$' in their topics they do if each stands under its own topic
    with the flag, which is so unless one of them was handed on because its packet id was used again.
  */
  method Restart(db: Database, d: Details, now: nat) returns (end: Restore.Ending, loader: Restore.Loader)
    requires InOrder(db) && Sized(db, d) && now < TWO64
    ensures forall m | m in db.storeList :: m in db.store && MessageSized(db.store[m], d, m)
    ensures var clients, list := ClientsOf(db.contexts, d), ListOf(db.storeList, db.store, d);
            var cs := Chunks(db, d);
            && end == EndOfRestart(db, d)
            && (end == Restore.Ends(0) ==>
                  && loader.Valid() && loader.lastId == db.nextStore - 1 && loader.sessions == Snapshot.Saved(clients)
                  && loader.store == Restore.StoreAfter(cs, list, clients)
                  && Rebuild.Renamed(db.tree.abs, clients, loader.tree.abs)
                  && SessionsBack(db.contexts, d, loader.sessions)
                  && SubscriptionsBack(db.contexts, d, db.tree.abs, loader.sessions, loader.tree.abs)
                  && MessagesBack(db, d, loader.store, loader.tree.ret)
                  && loader.tree.ret == Rebuild.RetOf(cs, list)
                  && (loader.tree.ret == db.tree.ret <==>
                        forall p | p in db.tree.ret :: Rebuild.ComesBack(cs, list, p, db.tree.ret[p])))
    ensures TwiceHeld(db) ==> (end == Restore.Ends(0) <==> NoneLeftOut(db, d)) && end != Restore.Crashes
    ensures (forall p | p in db.tree.ret :: db.log.reused[db.tree.ret[p]] == 0) ==> RetainedOwn(db) && TwiceHeld(db)
    ensures end == Restore.Ends(0) && RetainedOwn(db) && (forall p | p in db.tree.ret :: Plain(p)) ==>
              loader.tree.ret == db.tree.ret
  {
    hide *;
    CanBeSaved(db, d);
    WhatIsSaved(db, d);
    end, loader := Restore.Reload(db.tree, ClientsOf(db.contexts, d), ListOf(db.storeList, db.store, d), true,
                                  db.nextStore - 1, now);
    RetainedBack(db, d);
    IdsDiffer(db, d);
    SessionsComeBack(db.contexts, d);
    if end == Restore.Ends(0) { SubscriptionsComeBack(db.contexts, d, db.tree.abs, loader.tree.abs); }
    MessagesComeBack(db, d);
  }

  lemma IdsDiffer(db: Database, d: Details)
    requires Sized(db, d)
    ensures AllSized(db.contexts, d)
  {
  }

  // ----- restores that fail -----

  /** Ids, times and payloads for a database with one client and messages of one byte. */
  function OneByteMessages(): Details {
    Details(c => [97], c => 0, m => [], m => [49])
  }

  lemma OneMessageSized(db: Database, m: nat)
    requires InOrder(db) && Runs.AWaits(db.contexts, m, db.born, db.tree.abs, db.nextStore)
    ensures Sized(db, OneByteMessages())
  {
    hide Sound, Once, RetainedAs, DbOk;
    var d := OneByteMessages();
    forall x | x in db.store ensures MessageSized(db.store[x], d, x) {
      StoredAs(db, x);
    }
  }

  /** A message without the flag that two topics retain is freed when it is named for the first time. */
  lemma FreedBefore(db: Database, d: Details, m: nat)
    requires InOrder(db) && Sized(db, d) && m in db.store && !db.store[m].retain && TwoTopics(db, m)
             && !SavedWaits(db, m) && db.store[m].topic.Some? && !Snapshot.StartsWith(db.store[m].topic.value, "$SYS")
    requires forall x | x in db.storeList :: x in db.store && MessageSized(db.store[x], d, x)
    requires forall c: nat | c < |db.contexts| :: ClientSized(db.contexts[c], d, c)
    ensures !Rebuild.AllThere(Chunks(db, d), ListOf(db.storeList, db.store, d),
                              Snapshot.Saved(ClientsOf(db.contexts, d)))
  {
    hide Sound, MessageSized, ClientSized, ListOf, Walk.MessageAt, Walk.TreeChunks, FullPath, Tokens,
         Snapshot.QueueRefs, SavedWaits, Rebuild.AllThere, Walk.Twice, ClientsOf, LeftOut;
    var list := ListOf(db.storeList, db.store, d);
    var p :| p in db.tree.ret && db.tree.ret[p] == m;
    RetainedSave(db, d);
    NamedTwice(db, d, m);
    WaitsSaved(db, d, m);
    Rebuild.UnmarkedTwice(Chunks(db, d), list, Snapshot.Saved(ClientsOf(db.contexts, d)), m);
  }

  lemma NobodyIsSaved(db: Database, m: nat)
    requires Runs.AWaits(db.contexts, m, db.born, db.tree.abs, db.nextStore)
    ensures forall x :: !SavedWaits(db, x)
  {
  }

  lemma OnTwoTopics(db: Database, m: nat)
    requires InOrder(db) && Runs.AWaits(db.contexts, m, db.born, db.tree.abs, db.nextStore)
    requires db.tree.ret == map[FullPath("b") := m][FullPath("c") := m]
    ensures TwoTopics(db, m) && m in db.store && !db.store[m].retain && db.store[m].topic == Some("a")
    ensures !Snapshot.StartsWith("a", "$SYS")
  {
    hide Sound, Once, FullPath;
    assert "b"[0] != "c"[0];
    if FullPath("b") == FullPath("c") { FullPathInjective("b", "c"); }
    var b, c := FullPath("b"), FullPath("c");
    assert b in db.tree.ret && c in db.tree.ret && db.tree.ret[b] == m == db.tree.ret[c];
    RetainedStored(db.store, db.contexts, db.tree.ret, db.held, b);
    StoredAs(db, m);
    assert "$SYS"[..1] == "$" && |"a"| == 1;
  }

  /** After some run the message "a", sent without the flag, waits for its release, and "b" and "c" retain it. */
  ghost predicate AStandsTwice(db: Database, m: nat)
    reads db, db.tree
  {
    && InOrder(db) && Runs.AWaits(db.contexts, m, db.born, db.tree.abs, db.nextStore)
    && db.tree.ret == map[FullPath("b") := m][FullPath("c") := m]
  }

  lemma FreedTooEarly(db: Database, m: nat)
    requires InOrder(db) && Runs.AWaits(db.contexts, m, db.born, db.tree.abs, db.nextStore)
    requires db.tree.ret == map[FullPath("b") := m][FullPath("c") := m]
    ensures AStandsTwice(db, m)
    ensures var d := OneByteMessages();
            && Sized(db, d) && (forall x | x in db.storeList :: x in db.store && MessageSized(db.store[x], d, x))
            && (forall c: nat | c < |db.contexts| :: ClientSized(db.contexts[c], d, c))
            && NoneLeftOut(db, d) && EndOfRestart(db, d) == Restore.Crashes
  {
    hide InOrder, Sized, MessageSized, ClientSized, FullPath, TwoTopics, SavedWaits, Rebuild.AllThere, Chunks, ListOf,
         Snapshot.Saved, ClientsOf, Snapshot.StartsWith;
    OneMessageSized(db, m);
    CanBeSaved(db, OneByteMessages());
    NobodyIsSaved(db, m);
    OnTwoTopics(db, m);
    FreedBefore(db, OneByteMessages(), m);
  }

  method CrashOn(db: Database, ghost m: nat) returns (end: Restore.Ending, loader: Restore.Loader)
    requires InOrder(db) && Runs.AWaits(db.contexts, m, db.born, db.tree.abs, db.nextStore)
    requires db.tree.ret == map[FullPath("b") := m][FullPath("c") := m]
    ensures end == Restore.Crashes
  {
    assert 0 < TWO64;
    hide *;
    FreedTooEarly(db, m);
    end, loader := Restart(db, OneByteMessages(), 0);
  }

  /**
    The client sends "a" with QoS 2 and without the flag, and before its release two retained messages under its packet
    id. The broker then retains "a" under both of their topics, does not save the client, and crashes on what it saved.
  */
  method CrashAfterReuse(limits: Limits, mayRead: (nat, string) -> bool)
      returns (db: Database, end: Restore.Ending, loader: Restore.Loader, ghost m: nat)
    ensures AStandsTwice(db, m) && Sized(db, OneByteMessages()) && NoneLeftOut(db, OneByteMessages())
    ensures end == Restore.Crashes
  {
    hide *;
    db, m := Runs.RetainedTwice(limits, mayRead);
    end, loader := CrashOn(db, m);
    FreedTooEarly(db, m);
  }

  /**
    A session waits for a message of the broker itself that was retained when it subscribed and has been replaced since.
    Only the session refers to it, so that it is left out of the file, but the entry is not; the restore stops there.
  */
  method SysEntryLost() returns (end: Restore.Ending, loader: Restore.Loader)
    ensures end == Restore.Ends(1)
  {
    var message := Snapshot.Message([], 0, Some("$SYS/u"), 2, true, [49]);
    var list := [Snapshot.Stored(1, 0, 1, 0, message)];
    var clients := [Snapshot.Client(true, 1, Snapshot.Session([97], 1, [Snapshot.Queued(1, 1, 1, 1, 1, 2, 0)]))];
    assert !Snapshot.AllKept(clients, Snapshot.StoreOf(list)) by {
      assert Snapshot.StoreOf(list[..0]) == map[] && "$SYS/u"[..4] == "$SYS" && list[|list| - 1] == list[0];
      assert !Snapshot.Written(list[0]) && clients[0].session.msgs[0].store == 1;
    }
    hide *;
    var tree := new Subs.SubTree();
    end, loader := Restore.Reload(tree, clients, list, true, 1, 1);
  }
}
