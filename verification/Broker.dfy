/** The message database of the broker: stored messages with reference counts, and the queues of its sessions. */
module Broker {
  import opened Sequences
  import opened Wrappers
  import opened Topics
  import opened Tree
  import opened Search
  import opened Retained
  import opened Subs
  import opened Session
  import opened Phases
  import opened Accounts
  import opened Offers

  /** What is handed to the network layer for a client. */
  datatype Packet =
    | Publish(client: nat, message: nat, mid: nat, qos: nat, retain: bool, dup: bool)
    | Puback(client: nat, mid: nat)
    | Pubrec(client: nat, mid: nat)
    | Pubrel(client: nat, mid: nat)
    | Pubcomp(client: nat, mid: nat)
    | Suback(client: nat, mid: nat, granted: seq<nat>)
    | Unsuback(client: nat, mid: nat)

  class Database {
    const limits: Limits
    /** `mosquitto_acl_check` for reading a topic. */
    const mayRead: (nat, string) -> bool
    const tree: SubTree
    var store: Store
    var storeList: seq<nat>
    var storeCount: int
    var nextStore: nat
    var contexts: seq<Context>
    var sent: seq<Packet>
    /** Messages guarded by a distribution under way. */
    ghost var held: multiset<nat>
    /** What has become of the messages that came in. */
    ghost var log: Log
    /** Every message that was ever stored, as it was stored. */
    ghost var born: Store

    ghost predicate Valid()
      reads this, tree
    {
      DbOk(limits, store, storeList, storeCount, nextStore, contexts, tree.ret, held) && Alike(store, born, nextStore)
    }

    /** The tree is sound, its clients are the sessions of this database, and only valid filters are subscribed to. */
    ghost predicate TreeValid()
      reads this, tree
    {
      tree.Valid() && AllProper(tree.abs) && forall c: nat :: c in tree.subsOf <==> c < |contexts|
    }

    constructor (limits: Limits, mayRead: (nat, string) -> bool)
      ensures Valid() && TreeValid() && this.limits == limits && fresh(tree)
      ensures store == map[] && contexts == [] && sent == [] && held == multiset{}
              && log == Log({}, multiset{}, multiset{}, multiset{})
              && tree.abs == map[] && tree.ret == map[] && tree.at.Keys == {Root, Sub(Root, ""), Sub(Root, "$SYS")}
              && born == map[] && nextStore == 1
    {
      this.limits, this.mayRead := limits, mayRead;
      tree := new SubTree();
      store, storeList, storeCount, nextStore, born := map[], [], 0, 1, map[];
      contexts, sent, held, log := [], [], multiset{}, Log({}, multiset{}, multiset{}, multiset{});
      new;
      forall m ensures CountedRight(store, contexts, tree.ret, held, m) {
        assert RetCount(tree.ret, m) == 0;
      }
      assert forall c: nat :: Fine(limits, store, contexts, c);
    }

    /** `mosquitto__db_msg_store_remove`: unlink and free. */
    method StoreRemove(m: nat)
      requires ListOk(store, storeList, storeCount, nextStore) && m in store
      modifies this`store, this`storeList, this`storeCount
      ensures ListOk(store, storeList, storeCount, nextStore) && store == old(store) - {m}
    {
      var i := 0;
      while storeList[i] != m
        invariant i <= |storeList| && m in storeList[i..]
        decreases |storeList| - i
      {
        i := i + 1;
      }
      WithoutOne(storeList, i);
      storeList := Removed(storeList, i);
      storeCount := storeCount - 1;
      store := store - {m};
    }

    /** `mosquitto__db_msg_store_deref`. */
    method StoreDeref(m: nat)
      requires ListOk(store, storeList, storeCount, nextStore) && m in store
      modifies this`store, this`storeList, this`storeCount
      ensures ListOk(store, storeList, storeCount, nextStore) && store == Derefed(old(store), m)
    {
      var n := store[m].refCount - 1;
      store := store[m := store[m].(refCount := n)];
      if n == 0 {
        StoreRemove(m);
      }
    }

    /** `mqtt3_db_message_store`: the new message goes to the head of the list and has no references yet. */
    method MessageStore(sourceMid: nat, topic: Option<string>, qos: nat, payloadlen: nat, retain: bool) returns (m: nat)
      requires Valid() && (topic.Some? ==> ValidTopic(topic.value)) && (topic.None? ==> payloadlen == 0)
      modifies this`store, this`storeList, this`storeCount, this`nextStore, this`born
      ensures Valid() && (old(TreeValid()) ==> TreeValid())
      ensures m == old(nextStore) && m !in old(store)
      ensures store == old(store)[m := Stored(0, sourceMid, topic, qos, retain, payloadlen, [])] && nextStore == m + 1
      ensures m !in old(born) && born == old(born)[m := Stored(0, sourceMid, topic, qos, retain, payloadlen, [])]
    {
      m := nextStore;
      AlikeBorn(store, born, nextStore, Stored(0, sourceMid, topic, qos, retain, payloadlen, []));
      born := born[m := Stored(0, sourceMid, topic, qos, retain, payloadlen, [])];
      StoredNew(limits, store, storeList, storeCount, nextStore, contexts, tree.ret, held,
                Stored(0, sourceMid, topic, qos, retain, payloadlen, []));
      store := store[m := Stored(0, sourceMid, topic, qos, retain, payloadlen, [])];
      storeCount := storeCount + 1;
      nextStore := nextStore + 1;
      storeList := [m] + storeList;
    }

    /**
      The loop at the end of `_message_remove`: `i` is never counted up, so that the limit only matters when it is 0.
    */
    method PromoteHead(msgs: seq<Entry>) returns (r: seq<Entry>)
      ensures r == HeadPromoted(msgs, limits)
    {
      hide HeadPromoted, PromotedState;
      r := msgs;
      var tail := 0;
      assert msgs[..0] + HeadPromoted(msgs[0..], limits) == HeadPromoted(msgs, limits) by { assert msgs[0..] == msgs; }
      while tail < |r| && r[tail].state == Queued && 0 < limits.maxInflight
        invariant tail <= |r|
        invariant HeadPromoted(msgs, limits) == r[..tail] + HeadPromoted(r[tail..], limits)
        decreases |r| - tail
      {
        OnePromoted(r, tail, limits);
        r := r[tail := r[tail].(state := PromotedState(r[tail]))];
        tail := tail + 1;
      }
      NonePromoted(r[tail..], limits);
      assert r[..tail] + r[tail..] == r;
    }

    /** The part of `_message_remove` that concerns the session. */
    method Unlink(s: Context, i: nat) returns (s': Context)
      requires i < |s.msgs|
      ensures Unlinked(s, i, s') && s'.msgs == HeadPromoted(Removed(s.msgs, i), limits)
    {
      hide Unlinked, HeadPromoted, CountersOk;
      TailCounted(s);
      var msgs := Removed(s.msgs, i);
      // `last_msg` points to an entry, whose position may have changed.
      var last := if s.last.Some? && s.last.value > i then Some(s.last.value - 1) else s.last;
      if i > 0 {
        if i == |msgs| {
          last := Some(i - 1);
        }
      } else if msgs == [] {
        last := None;
      }
      var msgCount, msgCount12 := s.msgCount - 1, s.msgCount12;
      if s.msgs[i].key.qos > 0 {
        msgCount12 := msgCount12 - 1;
      }
      assert CountersOk(s) ==> last == if msgs == [] then None else Some(|msgs| - 1);
      msgs := PromoteHead(msgs);
      s' := s.(msgs := msgs, last := last, msgCount := msgCount, msgCount12 := msgCount12);
      HasUnlinked(s, i, limits, s');
    }

    /** `_message_remove` of entry `i` of client `c`. */
    method MessageRemove(c: nat, i: nat)
      requires Valid() && c < |contexts| && i < |contexts[c].msgs|
      modifies this`store, this`storeList, this`storeCount, this`contexts
      ensures Valid() && (old(TreeValid()) ==> TreeValid())
      ensures Only(c, old(contexts), contexts) && Unlinked(old(contexts)[c], i, contexts[c])
      ensures contexts[c].msgs == HeadPromoted(Removed(old(contexts)[c].msgs, i), limits)
      ensures forall cause | Stepwise(cause) && MayGo(old(contexts)[c].msgs[i], cause) ::
                Follows(old(contexts)[c].msgs, contexts[c].msgs, cause)
      ensures store.Keys <= old(store.Keys)
    {
      assert Fine(limits, store, contexts, c);
      RemovedFollows(contexts[c].msgs, i, limits);
      var m := contexts[c].msgs[i].key.store;
      EntryStored(store, contexts, tree.ret, held, c, i);
      AlikeCounted(store, born, nextStore, m);
      StoreDeref(m);
      var s := Unlink(contexts[c], i);
      DbAfterRemoval(limits, old(store), old(storeList), old(storeCount), storeList, storeCount, nextStore, contexts,
                     tree.ret, held, c, i, s);
      contexts := contexts[c := s];
    }

    /** `mqtt3_db_message_insert`. */
    method MessageInsert(c: nat, mid: nat, dir: Direction, qos: nat, retain: bool, m: nat, now: int) returns (rc: nat)
      requires Valid() && c < |contexts| && m in store
      requires dir == In ==>
                 qos == 2 && !Waits(Keys(contexts[c].msgs), mid) && store[m].sourceMid == mid
                 && store[m].retain == retain
      modifies this`store, this`contexts
      ensures Valid() && Only(c, old(contexts), contexts)
      ensures Inserted(limits, old(contexts)[c], contexts[c], old(store), store, c, Key(m, mid, qos, retain, dir), now,
                       rc)
    {
      var s := contexts[c];
      if !s.peer.named {
        return 0;
      }
      if !limits.allowDuplicates && dir == Out && !retain && c in store[m].dests {
        return 0;
      }
      if !s.peer.connected {
        if qos == 0 && !limits.queueQos0 {
          return 2;
        }
      }
      var key := Key(m, mid, qos, retain, dir);
      var state;
      rc := 0;
      if s.peer.connected {
        if qos == 0 || limits.maxInflight == 0 || s.msgCount12 < limits.maxInflight {
          state := if dir == Out then Ready(key) else WaitForPubrel;
        } else if limits.maxQueued == 0 || s.msgCount12 - limits.maxInflight < limits.maxQueued {
          state := Queued;
          rc := 2;
        } else {
          MarkDropping(c);
          return 2;
        }
      } else if limits.maxQueued > 0 && s.msgCount12 >= limits.maxQueued {
        MarkDropping(c);
        return 2;
      } else {
        state := Queued;
      }
      Enqueue(c, Entry(key, state, false, now));
    }

    /** Link a new entry at the end of the queue and record the client, so that it is not sent the message twice. */
    method Enqueue(c: nat, e: Entry)
      requires Valid() && c < |contexts| && contexts[c].peer.named && e.key.store in store
               && Accepts(contexts[c], e.key.qos, limits)
      requires StateFits(e)
      requires e.key.dir == In ==> e.key.qos == 2 && !Waits(Keys(contexts[c].msgs), e.key.mid)
      requires e.key.dir == In ==>
                 store[e.key.store].sourceMid == e.key.mid && store[e.key.store].retain == e.key.retain
      modifies this`store, this`contexts
      ensures Valid() && Only(c, old(contexts), contexts) && Appended(old(contexts)[c], e, contexts[c])
      ensures store == Recorded(Refed(old(store), e.key.store), e.key, c, limits)
    {
      hide DbOk, Alike, Accepts, Waits;
      var s := contexts[c];
      var m := e.key.store;
      AlikeCounted(store, born, nextStore, m);
      AlikeSent(Refed(store, m), born, nextStore, m, store[m].dests + [c]);
      var s' := s.(msgs := s.msgs + [e], last := Some(|s.msgs|), msgCount := s.msgCount + 1);
      if e.key.qos > 0 {
        s' := s'.(msgCount12 := s'.msgCount12 + 1);
      }
      DbAfterAppend(limits, store, storeList, storeCount, nextStore, contexts, tree.ret, held, c, e, s');
      contexts := contexts[c := s'];
      store := Refed(store, m);
      if !limits.allowDuplicates && e.key.dir == Out && !e.key.retain {
        var dests := store[m].dests + [c];
        DbDests(limits, store, storeList, storeCount, nextStore, contexts, tree.ret, held, m, dests);
        store := store[m := store[m].(dests := dests)];
      }
    }

    method MarkDropping(c: nat)
      requires Valid() && c < |contexts|
      modifies this`contexts
      ensures Valid() && contexts == old(contexts)[c := old(contexts)[c].(dropping := true)]
    {
      DbSameKeys(limits, store, storeList, storeCount, nextStore, contexts, tree.ret, held, c,
                 contexts[c].(dropping := true));
      contexts := contexts[c := contexts[c].(dropping := true)];
    }

    /** Replace the queue of a client by one with the same entries in other states. */
    method SetStates(c: nat, msgs: seq<Entry>)
      requires Valid() && c < |contexts| && Keys(msgs) == Keys(contexts[c].msgs)
      requires StatesFit(contexts[c].msgs) ==> StatesFit(msgs)
      modifies this`contexts
      ensures Valid() && contexts == old(contexts)[c := old(contexts)[c].(msgs := msgs)]
    {
      DbSameKeys(limits, store, storeList, storeCount, nextStore, contexts, tree.ret, held, c,
                 contexts[c].(msgs := msgs));
      contexts := contexts[c := contexts[c].(msgs := msgs)];
    }

    /** `mqtt3_db_message_update`. */
    method MessageUpdate(c: nat, mid: nat, dir: Direction, state: State, now: int) returns (found: bool)
      requires Valid() && c < |contexts| && forall e: Entry | e.key.dir == dir :: StateFits(e.(state := state))
      modifies this`contexts
      ensures Valid() && Only(c, old(contexts), contexts)
      ensures var before := old(contexts)[c].msgs;
              if found then exists i | 0 <= i < |before| ::
                && before[i].key.mid == mid && before[i].key.dir == dir
                && (forall j | 0 <= j < i :: before[j].key.mid != mid || before[j].key.dir != dir)
                && contexts[c] == old(contexts)[c].(msgs := before[i := before[i].(state := state, timestamp := now)])
              else contexts == old(contexts) && forall i | 0 <= i < |before| ::
                    before[i].key.mid != mid || before[i].key.dir != dir
    {
      var msgs := contexts[c].msgs;
      var i := 0;
      while i < |msgs|
        invariant i <= |msgs|
        invariant forall j | 0 <= j < i :: msgs[j].key.mid != mid || msgs[j].key.dir != dir
      {
        if msgs[i].key.mid == mid && msgs[i].key.dir == dir {
          var r := msgs[i := msgs[i].(state := state, timestamp := now)];
          SameKeys(msgs, r);
          SetStates(c, r);
          return true;
        }
        i := i + 1;
      }
      return false;
    }

    /** `mqtt3_db_message_store_find`. */
    method StoreFind(c: nat, mid: nat) returns (m: Option<nat>)
      requires Valid() && c < |contexts|
      ensures m.Some? <==> Waits(Keys(contexts[c].msgs), mid)
      ensures m.Some? ==> m.value in store && store[m.value].sourceMid == mid
      ensures m.Some? ==>
                exists i ::
                  0 <= i < |contexts[c].msgs| && contexts[c].msgs[i].key.store == m.value
                  && contexts[c].msgs[i].key.dir == In
                                      && contexts[c].msgs[i].key.mid == mid
    {
      var msgs := contexts[c].msgs;
      assert Fine(limits, store, contexts, c);
      var i := 0;
      while i < |msgs|
        invariant i <= |msgs|
        invariant forall j | 0 <= j < i :: msgs[j].key.mid != mid || msgs[j].key.dir != In
      {
        EntryStored(store, contexts, tree.ret, held, c, i);
        assert Keys(msgs)[i] == msgs[i].key;
        if store[msgs[i].key.store].sourceMid == mid && msgs[i].key.dir == In {
          return Some(msgs[i].key.store);
        }
        i := i + 1;
      }
      return None;
    }

    /**
      `mqtt3_db_message_delete`. All entries with the id and the direction go, as far as the loop looks: until one of
      them is gone and more than max_inflight others have been passed.
    */
    method MessageDelete(c: nat, mid: nat, dir: Direction, now: int)
      requires Valid() && c < |contexts|
      modifies this`store, this`storeList, this`storeCount, this`contexts
      ensures Valid() && Only(c, old(contexts), contexts)
      ensures contexts[c].peer == old(contexts)[c].peer
      ensures exists v: nat ::
                DeletedUpTo(Keys(old(contexts)[c].msgs), Keys(contexts[c].msgs), v, mid, dir, limits.maxInflight)
      ensures WindowStarted(contexts[c].msgs, limits.maxInflight)
      ensures Follows(old(contexts)[c].msgs, contexts[c].msgs, Answer(mid, dir))
    {
      hide Valid, Others, LooksOn, WindowStarted, Visited, DeletedUpTo, Only, Keys, Removed, Answers, Follows;
      FollowsSame(contexts[c].msgs, Answer(mid, dir));
      OnlyTwice(c, contexts, contexts, contexts);
      var msgIndex, deleted := 0, false;
      var i := 0;
      ghost var before, v := Keys(contexts[c].msgs), 0;
      NoneVisited(before, contexts[c].msgs, mid, dir, limits.maxInflight);
      while i < |contexts[c].msgs|
        invariant Valid() && Only(c, old(contexts), contexts) && c < |contexts|
        invariant i <= |contexts[c].msgs| && msgIndex == i && contexts[c].peer == old(contexts)[c].peer
        invariant Visited(before, Keys(contexts[c].msgs), i, v, mid, dir) && i <= v && (deleted <==> i < v)
        invariant forall n: nat | n <= v :: LooksOn(before, n, mid, dir, limits.maxInflight)
        invariant WindowStarted(contexts[c].msgs[..i], limits.maxInflight)
        invariant Follows(old(contexts)[c].msgs, contexts[c].msgs, Answer(mid, dir))
        decreases |contexts[c].msgs| - i
      {
        ghost var keys, between := Keys(contexts[c].msgs), contexts;
        KeyCount(contexts[c].msgs);
        msgIndex := msgIndex + 1;
        var answered := DeleteStep(c, i, msgIndex, mid, dir, now);
        OnlyTwice(c, old(contexts), between, contexts);
        FollowsTrans(old(contexts)[c].msgs, between[c].msgs, contexts[c].msgs, Answer(mid, dir));
        OneVisited(before, keys, Keys(contexts[c].msgs), i, v, mid, dir, answered);
        v := v + 1;
        if answered {
          msgIndex := msgIndex - 1;
          deleted := true;
        } else {
          i := i + 1;
        }
        StopOrGo(before, Keys(contexts[c].msgs), i, v, mid, dir, limits.maxInflight);
        if msgIndex > limits.maxInflight && deleted {
          StartedAll(contexts[c].msgs, i, limits.maxInflight);
          return;
        }
      }
      KeyCount(contexts[c].msgs);
      AllVisited(before, Keys(contexts[c].msgs), i, v, mid, dir, limits.maxInflight);
      StartedAll(contexts[c].msgs, i, limits.maxInflight);
    }

    /** One turn of that loop. */
    method DeleteStep(c: nat, i: nat, msgIndex: nat, mid: nat, dir: Direction, now: int) returns (answered: bool)
      requires Valid() && c < |contexts| && i < |contexts[c].msgs| && msgIndex == i + 1
      requires WindowStarted(contexts[c].msgs[..i], limits.maxInflight)
      modifies this`store, this`storeList, this`storeCount, this`contexts
      ensures Valid() && Only(c, old(contexts), contexts)
      ensures contexts[c].peer == old(contexts)[c].peer
      ensures |Keys(old(contexts)[c].msgs)| == |old(contexts)[c].msgs|
      ensures answered <==> Answers(Keys(old(contexts)[c].msgs)[i], mid, dir)
      ensures Keys(contexts[c].msgs) == if answered then Removed(Keys(old(contexts)[c].msgs), i)
              else Keys(old(contexts)[c].msgs)
      ensures |contexts[c].msgs| == |old(contexts)[c].msgs| - if answered then 1 else 0
      ensures WindowStarted(contexts[c].msgs[..if answered then i else i + 1], limits.maxInflight)
      ensures Follows(old(contexts)[c].msgs, contexts[c].msgs, Answer(mid, dir))
    {
      hide WindowStarted, Valid, Follows;
      StartEntry(c, i, msgIndex, now);
      ghost var msgs := contexts[c].msgs;
      assert Keys(contexts[c].msgs)[i] == contexts[c].msgs[i].key;
      assert contexts[c].msgs[..i] == old(contexts)[c].msgs[..i];
      StartedMore(contexts[c].msgs, i, limits.maxInflight);
      answered := Answers(contexts[c].msgs[i].key, mid, dir);
      if answered {
        RemoveAnswered(c, i);
        FollowsTrans(old(contexts)[c].msgs, msgs, contexts[c].msgs, Answer(mid, dir));
      }
    }

    method RemoveAnswered(c: nat, i: nat)
      requires Valid() && c < |contexts| && i < |contexts[c].msgs|
      requires WindowStarted(contexts[c].msgs[..i], limits.maxInflight)
      modifies this`store, this`storeList, this`storeCount, this`contexts
      ensures Valid() && Only(c, old(contexts), contexts)
      ensures contexts[c].peer == old(contexts)[c].peer
      ensures |contexts[c].msgs| == |old(contexts)[c].msgs| - 1
              && WindowStarted(contexts[c].msgs[..i], limits.maxInflight)
      ensures Keys(contexts[c].msgs) == Removed(Keys(old(contexts)[c].msgs), i)
      ensures forall cause | Stepwise(cause) && MayGo(old(contexts)[c].msgs[i], cause) ::
                Follows(old(contexts)[c].msgs, contexts[c].msgs, cause)
    {
      hide Follows;
      StartedStay(contexts[c].msgs, i, limits);
      MessageRemove(c, i);
    }

    /** The first part of the loops over acknowledged queues: entry `i` may start if it is among the first. */
    method StartEntry(c: nat, i: nat, msgIndex: nat, now: int)
      requires Valid() && c < |contexts| && i < |contexts[c].msgs|
      modifies this`contexts
      ensures Valid() && Only(c, old(contexts), contexts)
      ensures var msgs := old(contexts)[c].msgs;
              contexts[c] == old(contexts)[c].(msgs := if msgs[i].state == Queued && msgIndex <= limits.maxInflight
                                                       then msgs[i := Started(msgs[i], now)] else msgs)
      ensures Keys(contexts[c].msgs) == Keys(old(contexts)[c].msgs)
      ensures msgIndex <= limits.maxInflight ==> contexts[c].msgs[i].state != Queued
      ensures forall cause | Starting(cause) :: Follows(old(contexts)[c].msgs, contexts[c].msgs, cause)
    {
      hide Follows;
      var msgs := contexts[c].msgs;
      forall cause | Starting(cause) ensures Follows(msgs, msgs, cause) {
        FollowsSame(msgs, cause);
      }
      assert Keys(msgs)[i] == msgs[i].key && Fine(limits, store, contexts, c);
      if msgs[i].state == Queued && msgIndex <= limits.maxInflight {
        SameKeys(msgs, msgs[i := Started(msgs[i], now)]);
        forall cause | Starting(cause) ensures Follows(msgs, msgs[i := Started(msgs[i], now)], cause) {
          FollowsStarted(msgs, i, Started(msgs[i], now), cause);
        }
        SetStates(c, msgs[i := Started(msgs[i], now)]);
      }
    }

    /** `mqtt3_db_messages_delete`. */
    method MessagesDelete(c: nat)
      requires Valid() && c < |contexts|
      modifies this`store, this`storeList, this`storeCount, this`contexts
      ensures Valid() && store.Keys <= old(store.Keys)
      ensures contexts ==
                old(contexts)[c := old(contexts)[c].(msgs := [], last := None, msgCount := 0, msgCount12 := 0)]
    {
      hide ListOk, SessionsOk, AllCounted, Alike, Unlinked, HeadUnlinked, Sound;
      var msgs := contexts[c].msgs;
      ghost var rest := contexts[c];
      assert contexts[c := rest] == contexts;
      for i := 0 to |msgs|
        invariant contexts == old(contexts) && store.Keys <= old(store.Keys)
        invariant rest.msgs == msgs[i..] && rest.peer == contexts[c].peer
        invariant DbOk(limits, store, storeList, storeCount, nextStore, contexts[c := rest], tree.ret, held)
                  && Alike(store, born, nextStore)
      {
        EntryStored(store, contexts[c := rest], tree.ret, held, c, 0);
        ghost var store0, list0, count0 := store, storeList, storeCount;
        AlikeCounted(store, born, nextStore, msgs[i].key.store);
        StoreDeref(msgs[i].key.store);
        ghost var next := HeadUnlinked(rest);
        DbAfterRemoval(limits, store0, list0, count0, storeList, storeCount, nextStore, contexts[c := rest], tree.ret,
                       held, c, 0, next);
        Twice(contexts, c, rest, next);
        rest := next;
      }
      var s := contexts[c].(msgs := [], last := None, msgCount := 0, msgCount12 := 0);
      DbEmptied(limits, store, storeList, storeCount, nextStore, contexts[c := rest], tree.ret, held, c, s);
      Twice(contexts, c, rest, s);
      contexts := contexts[c := s];
    }

    /** `mqtt3_db_message_reconnect_reset` on a queue: the states, the counters and the tail. */
    method ResetQueue(msgs: seq<Entry>) returns (r: seq<Entry>, msgCount: int, msgCount12: int, last: Option<nat>)
      requires IncomingOk(Keys(msgs))
      ensures |r| == |msgs| && forall k | 0 <= k < |msgs| ::
                r[k] == msgs[k].(state := ResetQueueState(msgs[k], k, limits))
      ensures Keys(r) == Keys(msgs)
      ensures msgCount == |r| && msgCount12 == Count12(Keys(r)) && last == if r == [] then None else Some(|r| - 1)
    {
      r, msgCount, msgCount12, last := msgs, 0, 0, None;
      for i := 0 to |msgs|
        invariant |r| == |msgs| && forall k | 0 <= k < |msgs| ::
                    r[k] == if k < i then msgs[k].(state := ResetState(msgs[k])) else msgs[k]
        invariant msgCount == i && msgCount12 == Count12(Keys(msgs)[..i]) && last == if i == 0 then None
                  else Some(i - 1)
      {
        last := Some(i);
        msgCount := msgCount + 1;
        CountOneMore(Keys(msgs)[..i], Keys(msgs)[i], Counted);
        assert Keys(msgs)[..i + 1] == Keys(msgs)[..i] + [Keys(msgs)[i]];
        if msgs[i].key.qos > 0 {
          msgCount12 := msgCount12 + 1;
        }
        if msgs[i].key.dir == Out {
          if r[i].state != Queued {
            if msgs[i].key.qos == 0 {
              r := r[i := r[i].(state := PublishQos0)];
            } else if msgs[i].key.qos == 1 {
              r := r[i := r[i].(state := PublishQos1)];
            } else if r[i].state == WaitForPubcomp {
              r := r[i := r[i].(state := ResendPubrel)];
            } else {
              r := r[i := r[i].(state := PublishQos2)];
            }
          }
        }
        // An incoming entry is a QoS 2 one and keeps its state; others would be removed here.
      }
      assert Keys(msgs)[..|msgs|] == Keys(msgs);
      var count := 0;
      while count < |r| && (limits.maxInflight == 0 || count < limits.maxInflight)
        invariant count <= |r| == |msgs| && (limits.maxInflight > 0 ==> count <= limits.maxInflight)
        invariant forall k | 0 <= k < |msgs| ::
                    r[k] == msgs[k].(state := if k < count then ResetQueueState(msgs[k], k, limits)
                                     else ResetState(msgs[k]))
      {
        if r[count].state == Queued {
          r := r[count := r[count].(state := Ready(r[count].key))];
        }
        count := count + 1;
      }
      SameKeys(msgs, r);
    }

    /** `mqtt3_db_message_timeout_check`. */
    method TimeoutCheck(now: int, timeout: nat)
      requires Valid()
      modifies this`contexts
      ensures Valid() && |contexts| == |old(contexts)|
      ensures forall c: nat | c < |contexts| :: TimedOutSession(old(contexts)[c], contexts[c], now - timeout, now)
      ensures forall c: nat | c < |contexts| :: Repeats(old(contexts)[c], contexts[c], now - timeout, now)
    {
      QueuesFit();
      hide DbOk, Alike, Onward, StatesFit, TimedOut;
      for c := 0 to |contexts|
        invariant Valid() && |contexts| == |old(contexts)|
        invariant forall d: nat | c <= d < |contexts| :: contexts[d] == old(contexts)[d]
        invariant forall d: nat | d < c :: TimedOutSession(old(contexts)[d], contexts[d], now - timeout, now)
        invariant forall d: nat | d < c :: Repeats(old(contexts)[d], contexts[d], now - timeout, now)
      {
        if contexts[c].peer.connected {
          var r := TimeoutQueue(contexts[c].msgs, now - timeout, now);
          TimedOutFits(contexts[c].msgs, r, now - timeout, now);
          TimedOutOnward(contexts[c].msgs, r, now - timeout, now);
          SetStates(c, r);
        }
      }
    }

    lemma QueuesFit()
      requires Valid()
      ensures forall c: nat | c < |contexts| :: StatesFit(contexts[c].msgs)
    {
      hide ListOk, AllCounted, Alike;
      forall c: nat | c < |contexts| ensures StatesFit(contexts[c].msgs) {
        assert Fine(limits, store, contexts, c);
      }
    }

    method TimeoutQueue(msgs: seq<Entry>, threshold: int, now: int) returns (r: seq<Entry>)
      ensures Keys(r) == Keys(msgs) && |r| == |msgs| && forall k | 0 <= k < |msgs| ::
                r[k] == TimedOut(msgs[k], threshold, now)
    {
      r := msgs;
      for i := 0 to |msgs|
        invariant |r| == |msgs| && forall k | 0 <= k < |msgs| ::
                    r[k] == if k < i then TimedOut(msgs[k], threshold, now) else msgs[k]
      {
        var e := msgs[i];
        var state := Invalid;
        if e.timestamp < threshold && e.state != Queued {
          match e.state {
            case WaitForPuback => state := PublishQos1;
            case WaitForPubrec => state := PublishQos2;
            case WaitForPubrel => state := SendPubrec;
            case WaitForPubcomp => state := ResendPubrel;
            case _ =>
          }
          if state != Invalid {
            r := r[i := e.(timestamp := now, state := state, dup := true)];
          }
        }
      }
      SameKeys(msgs, r);
    }

    /**
      `mqtt3_db_message_write`; after `budget` packets a send fails and the walk stops. A queue whose incoming
      entries all have QoS 2 is walked in finitely many steps.
    */
    method MessageWrite(c: nat, budget: nat, now: int) returns (done: bool)
      requires Valid() && c < |contexts|
      modifies this`store, this`storeList, this`storeCount, this`contexts, this`sent
      ensures Valid() && Only(c, old(contexts), contexts) && contexts[c].peer == old(contexts)[c].peer
      ensures Tracked(Keys(contexts[c].msgs)) == Tracked(Keys(old(contexts)[c].msgs))
      ensures var w := WriteOut(old(contexts)[c].msgs, 0, 0, budget, c, limits, now);
              && contexts[c].msgs == w.msgs && sent == old(sent) + w.packets && done == w.done
              && Wrote(old(contexts)[c].msgs, w.msgs, w.packets, w.done, c)
    {
      hide *;
      QueueWalkable(c);
      WalkWroteAll(contexts[c].msgs, budget, c, limits, now);
      OnlyTwice(c, contexts, contexts, contexts);
      ghost var w := WriteOut(contexts[c].msgs, 0, 0, budget, c, limits, now);
      var i, msgCount, left := 0, 0, budget;
      ContinuesEnds(w, sent, sent, w);
      while i < |contexts[c].msgs|
        invariant Valid() && Only(c, old(contexts), contexts) && c < |contexts|
                  && contexts[c].peer == old(contexts)[c].peer
        invariant Tracked(Keys(contexts[c].msgs)) == Tracked(Keys(old(contexts)[c].msgs))
        invariant i <= |contexts[c].msgs|
        invariant Continues(w, old(sent), sent, WriteOut(contexts[c].msgs, i, msgCount, left, c, limits, now))
        decreases |contexts[c].msgs| - i, if i < |contexts[c].msgs| && contexts[c].msgs[i].state == Queued then 1 else 0
      {
        ghost var msgs, count, before := contexts[c].msgs, msgCount, contexts;
        WriteOutStep(msgs, i, count, left, c, limits, now);
        if contexts[c].msgs[i].key.dir == In {
          msgCount := msgCount + 1;
        }
        var e := contexts[c].msgs[i];
        if e.state != Queued {
          var gone, ok := WriteTurn(c, i, left, now, w, old(sent), WriteOut(msgs, i, count, left, c, limits, now));
          if !ok {
            return false;
          }
          OnlyTwice(c, old(contexts), before, contexts);
          if Outgoing(e, c).Some? {
            left := left - 1;
          }
          if !gone {
            i := i + 1;
          }
        } else if e.key.dir == In && (limits.maxInflight == 0 || msgCount < limits.maxInflight) {
          IncomingQos(c, i);
          if e.key.qos == 2 {
            SetState(c, i, e.(state := SendPubrec));
            OnlyTwice(c, old(contexts), before, contexts);
          }
        } else {
          i := i + 1;
        }
      }
      WriteOutStep(contexts[c].msgs, i, msgCount, left, c, limits, now);
      ContinuesEnds(w, old(sent), sent, WriteOut(contexts[c].msgs, i, msgCount, left, c, limits, now));
      return true;
    }

    lemma QueueWalkable(c: nat)
      requires Valid() && c < |contexts|
      ensures Walkable(contexts[c].msgs)
    {
      assert Fine(limits, store, contexts, c);
      assert forall k | 0 <= k < |contexts[c].msgs| :: Keys(contexts[c].msgs)[k] == contexts[c].msgs[k].key;
    }

    lemma SentOnce(c: nat, i: nat)
      requires Valid() && c < |contexts| && i < |contexts[c].msgs|
      ensures contexts[c].msgs[i].state == PublishQos0 ==> Keys(contexts[c].msgs)[i].qos == 0
    {
      assert Fine(limits, store, contexts, c) && Keys(contexts[c].msgs)[i] == contexts[c].msgs[i].key;
    }

    lemma IncomingQos(c: nat, i: nat)
      requires Valid() && c < |contexts| && i < |contexts[c].msgs|
      ensures contexts[c].msgs[i].key.dir == In ==> contexts[c].msgs[i].key.qos == 2
    {
      assert Fine(limits, store, contexts, c) && Keys(contexts[c].msgs)[i] == contexts[c].msgs[i].key;
    }

    method Transmit(packet: Packet)
      requires Valid()
      modifies this`sent
      ensures Valid() && sent == old(sent) + [packet]
    {
      hide Sound, DbOk;
      sent := sent + [packet];
    }

    method SetState(c: nat, i: nat, e: Entry)
      requires Valid() && c < |contexts| && i < |contexts[c].msgs| && e.key == contexts[c].msgs[i].key
               && (StateFits(contexts[c].msgs[i]) ==> StateFits(e))
      modifies this`contexts
      ensures Valid() && contexts == old(contexts)[c := old(contexts)[c].(msgs := old(contexts)[c].msgs[i := e])]
      ensures Only(c, old(contexts), contexts) && Keys(contexts[c].msgs) == Keys(old(contexts)[c].msgs)
    {
      SameKeys(contexts[c].msgs, contexts[c].msgs[i := e]);
      SetStates(c, contexts[c].msgs[i := e]);
    }

    /** The turn of an entry that does not wait for a place: its packet is sent, unless the sends are used up. */
    method WriteTurn(c: nat, i: nat, left: nat, now: int, ghost w: Written, ghost first: seq<Packet>,
                     ghost rest: Written)
        returns (gone: bool, ok: bool)
      requires Valid() && c < |contexts| && i < |contexts[c].msgs| && Continues(w, first, sent, rest)
      requires var e := contexts[c].msgs[i];
               && (Outgoing(e, c).Some? && left == 0 ==> rest == Written(contexts[c].msgs, [], false))
               && (Outgoing(e, c).Some? && left > 0 ==>
                     rest.packets != [] && rest.packets[0] == Outgoing(e, c).value)
      modifies this`store, this`storeList, this`storeCount, this`contexts, this`sent
      ensures Valid() && Only(c, old(contexts), contexts) && contexts[c].peer == old(contexts)[c].peer
      ensures Tracked(Keys(contexts[c].msgs)) == Tracked(Keys(old(contexts)[c].msgs))
      ensures var e := old(contexts)[c].msgs[i];
              && (ok <==> Outgoing(e, c).None? || left > 0)
              && (!ok ==> contexts == old(contexts) && sent == first + w.packets
                          && w == Written(contexts[c].msgs, w.packets, false))
              && (ok ==> Continues(w, first, sent,
                                   if Outgoing(e, c).Some? then rest.(packets := rest.packets[1..]) else rest))
              && (ok ==> (gone <==> e.state == PublishQos0)
                         && |contexts[c].msgs| == |old(contexts)[c].msgs| - (if gone then 1 else 0)
                         && contexts[c].msgs == if gone then HeadPromoted(Removed(old(contexts)[c].msgs, i), limits)
                                                else old(contexts)[c].msgs[i := AfterSending(e, now)])
    {
      hide Valid, HeadPromoted, AfterSending, Tracked, Removed, Continues, Outgoing, Only, Keys;
      OnlyTwice(c, contexts, contexts, contexts);
      var packet := Outgoing(contexts[c].msgs[i], c);
      if packet.Some? && left == 0 {
        ContinuesEnds(w, first, sent, rest);
        return false, false;
      }
      ok := true;
      if packet.Some? {
        ContinuesSent(w, first, sent, packet.value, rest);
        Transmit(packet.value);
      }
      gone := WriteStep(c, i, now);
    }

    /** What becomes of an entry whose packet has been sent. */
    method WriteStep(c: nat, i: nat, now: int) returns (gone: bool)
      requires Valid() && c < |contexts| && i < |contexts[c].msgs|
      modifies this`store, this`storeList, this`storeCount, this`contexts
      ensures Valid() && Only(c, old(contexts), contexts) && contexts[c].peer == old(contexts)[c].peer
      ensures Tracked(Keys(contexts[c].msgs)) == Tracked(Keys(old(contexts)[c].msgs))
      ensures |contexts[c].msgs| == if gone then |old(contexts)[c].msgs| - 1 else |old(contexts)[c].msgs|
      ensures gone <==> old(contexts)[c].msgs[i].state == PublishQos0
      ensures gone ==> contexts[c].msgs == HeadPromoted(Removed(old(contexts)[c].msgs, i), limits)
      ensures !gone ==> contexts[c].msgs == old(contexts)[c].msgs[i := AfterSending(old(contexts)[c].msgs[i], now)]
    {
      hide Valid, HeadPromoted, Tracked, Removed, Unlinked, Only;
      OnlyTwice(c, contexts, contexts, contexts);
      var e := contexts[c].msgs[i];
      match e.state {
        case PublishQos0 =>
          SentOnce(c, i);
          DropSent(c, i);
          return true;
        case PublishQos1 => SetState(c, i, e.(timestamp := now, dup := true, state := WaitForPuback));
        case PublishQos2 => SetState(c, i, e.(timestamp := now, dup := true, state := WaitForPubrec));
        case SendPubrec => SetState(c, i, e.(state := WaitForPubrel));
        case ResendPubrel => SetState(c, i, e.(state := WaitForPubcomp));
        case ResendPubcomp => SetState(c, i, e.(state := WaitForPubrel));
        case _ =>
      }
      return false;
    }

    /** A QoS 0 message that has been sent leaves the queue. */
    method DropSent(c: nat, i: nat)
      requires Valid() && c < |contexts| && i < |contexts[c].msgs| && Keys(contexts[c].msgs)[i].qos == 0
      modifies this`store, this`storeList, this`storeCount, this`contexts
      ensures Valid() && Only(c, old(contexts), contexts) && contexts[c].peer == old(contexts)[c].peer
      ensures Tracked(Keys(contexts[c].msgs)) == Tracked(Keys(old(contexts)[c].msgs))
      ensures contexts[c].msgs == HeadPromoted(Removed(old(contexts)[c].msgs, i), limits)
              && |contexts[c].msgs| == |old(contexts)[c].msgs| - 1
    {
      hide Valid, HeadPromoted, Tracked;
      TrackedRemoved(Keys(contexts[c].msgs), i);
      MessageRemove(c, i);
    }

    // ----- distribution -----

    /** `_retain_process` for a retained message. */
    method RetainProcess(c: nat, m: nat, subQos: nat, now: int) returns (taken: bool)
      requires Valid() && TreeValid() && c < |contexts| && m in store
      modifies this`store, this`contexts
      ensures Valid() && TreeValid() && Only(c, old(contexts), contexts) && store.Keys == old(store.Keys)
      ensures forall x | x in store :: store[x].topic == old(store)[x].topic && store[x].qos == old(store)[x].qos
      ensures if taken then GotRetained(old(contexts)[c], contexts[c], m, LowerQos(old(store)[m].qos, subQos))
              else Untouched(old(contexts)[c], contexts[c])
      ensures NothingDropped(old(contexts)[c], contexts[c]) ==> (taken <==> Permitted(c, old(store)[m].topic))
    {
      hide *;
      if !Permitted(c, store[m].topic) {
        NothingInserted(contexts, c);
        return false;
      }
      var qos := store[m].qos;
      if qos > subQos {
        qos := subQos;
      }
      var mid := 0;
      if qos > 0 {
        mid := MidGenerate(c);
      }
      ghost var before := contexts;
      var s := contexts[c];
      var rc := MessageInsert(c, mid, Out, qos, true, m, now);
      RetainInserted(limits, c, old(contexts), before, contexts, old(store), store, m, mid, qos, now, rc);
      TreeKept();
      return s.peer.named && Accepts(s, qos, limits);
    }

    lemma NodeStored(r: nat)
      requires Valid() && TreeValid() && r in tree.nodes && tree.nodes[r].retained.Some?
      ensures tree.nodes[r].retained.value in store
    {
      hide Sound, SessionsOk, ListOk;
      tree.RetainedAt(r);
      RetainedStored(store, contexts, tree.ret, held, tree.path[r]);
    }

    /**
      `mqtt3_retain_queue` after a subscription: the client gets the retained messages that its filter asks for, each at
      most once, and all that it may read unless its queue starts to drop.
    */
    method RetainQueue(c: nat, filter: string, subQos: nat, now: int) returns (ghost kept: seq<nat>)
      requires Valid() && TreeValid() && c < |contexts| && ValidFilter(filter)
      modifies this`store, this`contexts
      ensures Valid() && TreeValid() && Only(c, old(contexts), contexts)
      ensures store.Keys == old(store.Keys)
      ensures GetsRetained(c, filter, subQos, kept, old(store), old(contexts)[c], contexts[c])
    {
      hide Sound, DbOk, Alike, AllProper, Asked, GotAll, GotRetained, Untouched, Permitted, Denied, NothingDropped,
           KeptSoFar, SubTree.AllAsked, GetsRetained;
      var found := tree.RetainQueue(filter);
      kept := [];
      NoneKept(c, subQos, store, contexts, found);
      for i := 0 to |found|
        invariant Valid() && TreeValid() && Only(c, old(contexts), contexts) && store.Keys == old(store.Keys)
        invariant forall x | x in store :: store[x].topic == old(store)[x].topic && store[x].qos == old(store)[x].qos
        invariant KeptSoFar(c, found[..i], subQos, kept, old(store), old(contexts)[c], contexts[c])
      {
        ghost var s := contexts[c];
        NodeStored(found[i]);
        var taken := RetainProcess(c, tree.nodes[found[i]].retained.value, subQos, now);
        KeptMore(c, found, i, subQos, kept, taken, old(store), old(contexts)[c], s, contexts[c]);
        if taken {
          kept := kept + [found[i]];
        }
      }
      KeptAll(c, filter, subQos, found, kept, old(store), old(contexts)[c], contexts[c]);
    }

    /**
      The copies so far: those of some of the nodes `found`, and of all that may be read unless something was dropped.
    */
    ghost predicate KeptSoFar(c: nat, found: seq<nat>, subQos: nat, kept: seq<nat>, store: Store, before: Context,
                              after: Context)
      reads tree
    {
      && NoDups(kept) && GotAll(before, after, tree.nodes, kept, subQos, store) && (forall x | x in kept :: x in found)
      && (NothingDropped(before, after) ==> forall x | x in found && x !in kept :: Denied(store, c, x))
    }

    lemma NoneKept(c: nat, subQos: nat, store: Store, contexts: seq<Context>, found: seq<nat>)
      requires c < |contexts|
      ensures KeptSoFar(c, found[..0], subQos, [], store, contexts[c], contexts[c]) && Only(c, contexts, contexts)
    {
      assert contexts[c := contexts[c]] == contexts;
    }

    lemma KeptMore(c: nat, found: seq<nat>, i: nat, subQos: nat, kept: seq<nat>, taken: bool, store: Store, s0: Context,
                   s1: Context, s2: Context)
      requires NoDups(found) && i < |found| && found[i] in tree.nodes && tree.nodes[found[i]].retained.Some?
      requires KeptSoFar(c, found[..i], subQos, kept, store, s0, s1)
      requires var m := tree.nodes[found[i]].retained.value;
               && m in store
               && (if taken then GotRetained(s1, s2, m, LowerQos(store[m].qos, subQos)) else Untouched(s1, s2))
               && (NothingDropped(s1, s2) ==> (taken <==> Permitted(c, store[m].topic)))
      ensures KeptSoFar(c, found[..i + 1], subQos, if taken then kept + [found[i]] else kept, store, s0, s2)
    {
      hide Permitted;
      GotOneMore(s0, s1, s2, tree.nodes, kept, found[i], subQos, store);
      assert found[..i + 1] == found[..i] + [found[i]];
      if taken {
        assert found[i] !in kept;
        WithOneMore(kept, found[i]);
      }
      assert NothingDropped(s0, s2) ==> NothingDropped(s0, s1) && NothingDropped(s1, s2);
    }

    lemma KeptAll(c: nat, filter: string, subQos: nat, found: seq<nat>, kept: seq<nat>, store: Store, before: Context,
                  after: Context)
      requires Valid() && TreeValid() && tree.AllAsked(filter, found) && this.store.Keys == store.Keys
      requires KeptSoFar(c, found[..|found|], subQos, kept, store, before, after)
      ensures GetsRetained(c, filter, subQos, kept, store, before, after)
    {
      hide Sound, DbOk, Asked, GotAll, NothingDropped, Permitted;
      assert found[..|found|] == found;
      forall p | p in tree.ret
        ensures p in tree.at && tree.at[p] in tree.nodes && tree.nodes[tree.at[p]].retained == Some(tree.ret[p])
                && tree.ret[p] in store
      {
        RetainedNode(p);
      }
    }

    lemma RetainedNode(p: Path)
      requires Valid() && TreeValid() && p in tree.ret
      ensures p in tree.at && tree.at[p] in tree.nodes && tree.nodes[tree.at[p]].retained == Some(tree.ret[p])
              && tree.ret[p] in store
    {
      RetainedStored(store, contexts, tree.ret, held, p);
    }

    /**
      Client `c`, which subscribes to `filter`, gets copies of the retained messages of the nodes `kept` and nothing
      else.
    */
    ghost predicate GetsRetained(c: nat, filter: string, subQos: nat, kept: seq<nat>, store: Store, before: Context,
                                 after: Context)
      reads tree
    {
      && NoDups(kept) && GotAll(before, after, tree.nodes, kept, subQos, store)
      && forall topic | ValidTopic(topic) && FullPath(topic) in tree.ret ::
           && FullPath(topic) in tree.at && tree.at[FullPath(topic)] in tree.nodes && tree.ret[FullPath(topic)] in store
           && (var asked := Asked(tree.nodes, tree.path, tree.at, tree.at[FullPath(topic)], filter, topic);
               && (tree.at[FullPath(topic)] in kept ==> asked)
               && (asked && Permitted(c, store[tree.ret[FullPath(topic)]].topic) && NothingDropped(before, after)
                   ==> tree.at[FullPath(topic)] in kept))
    }

    ghost predicate Denied(store: Store, c: nat, r: nat)
      reads tree
    {
      r in tree.nodes && tree.nodes[r].retained.Some? && tree.nodes[r].retained.value in store
      && !Permitted(c, store[tree.nodes[r].retained.value].topic)
    }

    /** The access check on a stored message fails if this has no topic. */
    predicate Permitted(c: nat, topic: Option<string>) {
      topic.Some? && mayRead(c, topic.value)
    }

    /** The part of `_subs_process` that stores or clears the retained message of a topic. */
    method StoreRetained(r: nat, m: nat)
      requires Valid() && TreeValid() && r in tree.nodes && m in held && m in store
      requires Full(tree.path[r]) && LiteralLevels(Labels(tree.path[r]))
      modifies this`store, this`storeList, this`storeCount, tree`nodes, tree`ret
      ensures Valid() && TreeValid()
      ensures m in store && store[m] == old(store)[m].(refCount := store[m].refCount)
      ensures tree.nodes == old(tree.nodes)[r := old(tree.nodes)[r].(retained := tree.nodes[r].retained)]
      ensures tree.ret == if old(store)[m].payloadlen > 0 then old(tree.ret)[tree.path[r] := m]
              else old(tree.ret) - {tree.path[r]}
    {
      hide Sound, Full, LiteralLevels, DbOk, Alike, Derefed, Refed, AllProper;
      var message := if store[m].payloadlen > 0 then Some(m) else None;
      tree.RetainedAt(r);
      ghost var p, store0, list0, count0 := tree.path[r], store, storeList, storeCount;
      RetainedOk(p);
      AlikeRetained(store, born, nextStore, tree.ret, p, m);
      if tree.nodes[r].retained.Some? {
        StoreDeref(tree.nodes[r].retained.value);
      }
      DbRetained(limits, store0, list0, count0, storeList, storeCount, nextStore, contexts, tree.ret, held, p, m,
                 message);
      if message.Some? {
        store := Refed(store, m);
      }
      tree.SetRetained(r, message);
    }

    lemma RetainedOk(p: Path)
      requires Valid()
      ensures ListOk(store, storeList, storeCount, nextStore) && (p in tree.ret ==> tree.ret[p] in store)
    {
      hide ListOk, SessionsOk;
      if p in tree.ret { RetainedStored(store, contexts, tree.ret, held, p); }
    }

    /** One turn of the loop over the leaves of a node in `_subs_process`. */
    method Offer(leaf: Leaf, m: nat, topic: string, qos: nat, now: int)
      requires Valid() && leaf.client < |contexts| && m in store
      modifies this`store, this`contexts
      ensures Valid() && store.Keys == old(store.Keys) && forall x | x in store ::
                store[x].payloadlen == old(store)[x].payloadlen
      ensures OfferTurn(Mail(limits, mayRead, m, topic, qos), leaf.client, leaf.qos, old(contexts), old(store)[m].dests,
                        contexts, store[m].dests)
    {
      hide Valid, Inserted, OfferTurn;
      var c := leaf.client;
      ghost var d := Mail(limits, mayRead, m, topic, qos);
      if !contexts[c].peer.named || !mayRead(c, topic) {
        OfferDeclined(d, c, leaf.qos, contexts, store[m].dests);
        return;
      }
      var msgQos := leaf.qos;
      if !limits.upgradeQos {
        if qos < leaf.qos {
          msgQos := qos;
        }
      }
      var mid := 0;
      if msgQos > 0 {
        mid := MidGenerate(c);
      }
      ghost var before := contexts;
      var rc := MessageInsert(c, mid, Out, msgQos, false, m, now);
      OfferInserted(d, c, leaf.qos, old(contexts), before, contexts, store, old(store), mid, now, rc);
    }

    /** `_mosquitto_mid_generate`: 16 bits, never 0. */
    method MidGenerate(c: nat) returns (mid: nat)
      requires Valid() && c < |contexts|
      modifies this`contexts
      ensures Valid() && contexts == old(contexts)[c := old(contexts)[c].(lastMid := mid)]
      ensures 1 <= mid <= 65535 && mid % 65535 == (old(contexts)[c].lastMid % 65536 + 1) % 65535
    {
      mid := (contexts[c].lastMid + 1) % 65536;
      if mid == 0 {
        mid := 1;
      }
      DbSameKeys(limits, store, storeList, storeCount, nextStore, contexts, tree.ret, held, c,
                 contexts[c].(lastMid := mid));
      contexts := contexts[c := contexts[c].(lastMid := mid)];
    }

    /** The loop over the leaves of a node in `_subs_process`; `offers` are those made so far. */
    method Deliver(r: nat, m: nat, topic: string, qos: nat, now: int, ghost first: seq<Context>, ghost had: seq<nat>,
                   ghost offers: seq<(nat, Path)>)
      requires Valid() && TreeValid() && r in tree.nodes && r in tree.path && m in store
      requires Offered(Mail(limits, mayRead, m, topic, qos), tree.abs, first, had, offers, contexts, store[m].dests)
      modifies this`store, this`contexts
      ensures Valid() && TreeValid() && |contexts| == |old(contexts)|
      ensures store.Keys == old(store.Keys) && store[m].payloadlen == old(store)[m].payloadlen
      ensures Offered(Mail(limits, mayRead, m, topic, qos), tree.abs, first, had, offers
                      + OffersAt(tree.nodes, tree.path, r), contexts, store[m].dests)
    {
      hide *;
      ghost var d := Mail(limits, mayRead, m, topic, qos);
      var subs := tree.nodes[r].subs;
      NodeOffers(r);
      NoneMade(tree.nodes, tree.path, r, offers);
      for i := 0 to |subs|
        invariant Valid() && TreeValid() && |contexts| == |old(contexts)| && store.Keys == old(store.Keys)
        invariant store[m].payloadlen == old(store)[m].payloadlen
        invariant Offered(d, tree.abs, first, had, offers + OffersAt(tree.nodes, tree.path, r)[..i], contexts,
                          store[m].dests)
      {
        ghost var before, dests := contexts, store[m].dests;
        label Turn:
        Offer(subs[i], m, topic, qos, now);
        OfferMade(d, tree.nodes, tree.path, tree.abs, r, i, first, had, offers, before, dests, contexts,
                  store[m].dests);
        TreeKept@Turn();
      }
    }

    twostate lemma TreeKept()
      requires old(TreeValid()) && |contexts| == |old(contexts)| && unchanged(tree)
      ensures TreeValid()
    {
      hide Sound;
    }

    /** The offers at a node are subscriptions of sessions. */
    lemma NodeOffers(r: nat)
      requires TreeValid() && r in tree.nodes
      ensures r in tree.path && ListedOffers(tree.nodes, tree.path, tree.abs, r)
      ensures forall i | 0 <= i < |tree.nodes[r].subs| :: tree.nodes[r].subs[i].client < |contexts|
    {
      hide Sound;
      tree.OfferHere(r, (0, Root));
      tree.LeafClients(r);
    }

    /** `_subs_process` for one call of the walk. */
    method SubsProcess(call: Call, m: nat, topic: string, qos: nat, retain: bool, fromClient: bool, now: int,
                       ghost first: seq<Context>, ghost had: seq<nat>, ghost offers: seq<(nat, Path)>)
      requires Valid() && TreeValid() && call.node in tree.nodes && call.node in tree.path && m in store && m in held
      requires call.setRetain ==> ValidTopic(topic) && tree.path[call.node] == FullPath(topic)
      requires Offered(Mail(limits, mayRead, m, topic, qos), tree.abs, first, had, offers, contexts, store[m].dests)
      modifies this`store, this`storeList, this`storeCount, this`contexts, tree`nodes, tree`ret
      ensures Valid() && TreeValid() && m in store && |contexts| == |old(contexts)|
      ensures store[m].payloadlen == old(store)[m].payloadlen
      ensures SameLeaves(old(tree.nodes), tree.nodes)
      ensures tree.ret == if retain && call.setRetain then RetainedAfter(old(tree.ret), topic, m, store[m].payloadlen)
              else old(tree.ret)
      ensures Offered(Mail(limits, mayRead, m, topic, qos), tree.abs, first, had,
                      if fromClient then offers + OffersAt(old(tree.nodes), tree.path, call.node) else offers, contexts,
                          store[m].dests)
      ensures !fromClient ==> contexts == old(contexts)
    {
      hide Sound, DbOk, Offered;
      if retain && call.setRetain {
        FullPathIsFull(topic);
        LiteralTokens(topic);
        StoreRetained(call.node, m);
      }
      if fromClient {
        OffersSame(old(tree.nodes), tree.nodes, tree.path, call.node);
        Deliver(call.node, m, topic, qos, now, first, had, offers);
      }
    }

    /** The loop of `mqtt3_db_messages_queue` over what the walk has found. */
    method ProcessAll(calls: seq<Call>, m: nat, topic: string, qos: nat, retain: bool, fromClient: bool, now: int)
      requires Valid() && TreeValid() && m in store && m in held && ValidTopic(topic)
      requires Targets(calls) <= tree.nodes.Keys && RetainAt(tree.path, calls, FullPath(topic), true)
      modifies this`store, this`storeList, this`storeCount, this`contexts, tree`nodes, tree`ret
      ensures Valid() && TreeValid() && m in store && |contexts| == |old(contexts)|
      ensures store[m].payloadlen == old(store)[m].payloadlen
      ensures tree.ret == if retain && SomeRetain(calls)
              then RetainedAfter(old(tree.ret), topic, m, store[m].payloadlen) else old(tree.ret)
      ensures Offered(Mail(limits, mayRead, m, topic, qos), tree.abs, old(contexts), old(store)[m].dests,
                      if fromClient then OffersOf(old(tree.nodes), tree.path, calls) else [], contexts, store[m].dests)
      ensures !fromClient ==> contexts == old(contexts)
    {
      hide *;
      ghost var d := Mail(limits, mayRead, m, topic, qos);
      NothingProcessed(d, tree.abs, tree.nodes, tree.path, contexts, store[m].dests, calls);
      for j := 0 to |calls|
        invariant Valid() && TreeValid() && m in store && m in held && |contexts| == |old(contexts)|
        invariant store[m].payloadlen == old(store)[m].payloadlen && SameLeaves(old(tree.nodes), tree.nodes)
        invariant tree.ret == if retain && SomeRetain(calls[..j])
                  then RetainedAfter(old(tree.ret), topic, m, store[m].payloadlen) else old(tree.ret)
        invariant Offered(d, tree.abs, old(contexts), old(store)[m].dests,
                          if fromClient then OffersOf(old(tree.nodes), tree.path, calls[..j]) else [], contexts,
                              store[m].dests)
        invariant !fromClient ==> contexts == old(contexts)
      {
        ghost var nodes := tree.nodes;
        CallProcessed(calls, j, old(tree.nodes), nodes, tree.path, FullPath(topic));
        RetainedTwice(old(tree.ret), topic, m, store[m].payloadlen);
        SubsProcess(calls[j], m, topic, qos, retain, fromClient, now, old(contexts), old(store)[m].dests,
                    if fromClient then OffersOf(old(tree.nodes), tree.path, calls[..j]) else []);
        SameLeavesTrans(old(tree.nodes), nodes, tree.nodes);
      }
      assert calls[..|calls|] == calls;
    }

    /** The walk, and what its calls amount to. */
    method Walk(topic: string, retain: bool) returns (calls: seq<Call>)
      requires Valid() && TreeValid() && ValidTopic(topic)
      modifies tree
      ensures Valid() && TreeValid() && tree.abs == old(tree.abs) && tree.ret == old(tree.ret)
              && tree.subsOf == old(tree.subsOf)
      ensures Targets(calls) <= tree.nodes.Keys && RetainAt(tree.path, calls, FullPath(topic), true)
      ensures Matching(OffersOf(tree.nodes, tree.path, calls), tree.abs, topic)
      ensures retain ==> (SomeRetain(calls) <==> Sub(Root, Tokens(topic)[0]) in old(tree.at))
    {
      calls := tree.TopicCalls(topic, retain);
      OnlyOwnNode(calls, tree.path, tree.at, topic);
      forall o ensures o in OffersOf(tree.nodes, tree.path, calls) <==> o in tree.abs && Reached(o.1, topic) {
        tree.OffersAreSubscriptions(topic, calls, o);
      }
      tree.OffersOnce(calls);
    }

    /**
      `mqtt3_db_messages_queue`. Each subscription that the topic reaches is offered the message once. Without
      duplicates each client gets at most one copy, and gets none only if every offer to it was turned down; with them
      it gets one for each offer that it takes.
    */
    method MessagesQueue(m: nat, topic: string, qos: nat, retain: bool, fromClient: bool, now: int)
      requires Valid() && TreeValid() && m in store && ValidTopic(topic)
      modifies this`store, this`storeList, this`storeCount, this`contexts, this`held, this`log, tree
      ensures Valid() && TreeValid() && held == old(held) && |contexts| == |old(contexts)|
      ensures tree.abs == old(tree.abs) && tree.subsOf == old(tree.subsOf)
      ensures log == old(log).(routed := old(log).routed + multiset{m})
      ensures tree.ret == RetainedIf(old(tree.ret), old(tree.at), topic, retain, m, old(store)[m].payloadlen)
      ensures if fromClient
              then AllServed(Mail(limits, mayRead, m, topic, qos), tree.abs, old(store)[m].dests, old(contexts),
                             contexts)
              else contexts == old(contexts)
      ensures fromClient ==>
                AllRight(Mail(limits, mayRead, m, topic, qos), tree.abs, old(store)[m].dests, old(contexts), contexts)
      ensures AllIncoming(old(contexts), contexts)
    {
      hide *;
      NoteRouted(m);
      Guard(m);
      GuardedStill(old(store), m);
      Distribute(m, topic, qos, retain, fromClient, now);
      if fromClient {
        AllServedRight(Mail(limits, mayRead, m, topic, qos), tree.abs, old(store)[m].dests, old(contexts), contexts);
      }
      Unguard(m);
    }

    /** What happens between the two. */
    method Distribute(m: nat, topic: string, qos: nat, retain: bool, fromClient: bool, now: int)
      requires Valid() && TreeValid() && m in store && m in held && ValidTopic(topic)
      modifies this`store, this`storeList, this`storeCount, this`contexts, tree
      ensures Valid() && TreeValid() && |contexts| == |old(contexts)|
      ensures tree.abs == old(tree.abs) && tree.subsOf == old(tree.subsOf)
      ensures tree.ret == RetainedIf(old(tree.ret), old(tree.at), topic, retain, m, old(store)[m].payloadlen)
      ensures if fromClient
              then AllServed(Mail(limits, mayRead, m, topic, qos), tree.abs, old(store)[m].dests, old(contexts),
                             contexts)
              else contexts == old(contexts)
      ensures AllIncoming(old(contexts), contexts)
    {
      hide *;
      var calls := Walk(topic, retain);
      ghost var d, nodes, first, dests := Mail(limits, mayRead, m, topic, qos), tree.nodes, contexts, store[m].dests;
      RetainedWhen(tree.ret, old(tree.at), topic, retain, m, store[m].payloadlen, calls);
      ProcessAll(calls, m, topic, qos, retain, fromClient, now);
      if fromClient {
        AllOffersMade(d, tree.abs, first, dests, OffersOf(nodes, tree.path, calls), contexts, store[m].dests);
        OfferedCount(d, tree.abs, first, dests, OffersOf(nodes, tree.path, calls), contexts, store[m].dests);
      } else {
        NothingChanged(contexts);
      }
    }

    ghost method NoteRouted(m: nat)
      requires Valid() && TreeValid()
      modifies this`log
      ensures Valid() && TreeValid() && log == old(log).(routed := old(log).routed + multiset{m})
    {
      hide Sound, DbOk;
      log := log.(routed := log.routed + multiset{m});
    }

    /** `(*stored)->ref_count++`: the message outlives the distribution. */
    method Guard(m: nat)
      requires Valid() && m in store
      modifies this`store, this`held
      ensures Valid() && store == Refed(old(store), m) && held == old(held) + multiset{m}
      ensures old(TreeValid()) ==> TreeValid()
    {
      hide DbOk, Alike, Sound, AllProper, Refed;
      DbGuarded(limits, store, storeList, storeCount, nextStore, contexts, tree.ret, held, m);
      AlikeCounted(store, born, nextStore, m);
      store := Refed(store, m);
      held := held + multiset{m};
    }

    method Unguard(m: nat)
      requires Valid() && m in held
      modifies this`store, this`storeList, this`storeCount, this`held
      ensures Valid() && m in old(store) && store == Derefed(old(store), m) && held == old(held) - multiset{m}
      ensures old(TreeValid()) ==> TreeValid()
    {
      hide DbOk, Alike, Sound, AllProper, Derefed, ListOk;
      ghost var store0, list0, count0 := store, storeList, storeCount;
      DbListed(limits, store, storeList, storeCount, nextStore, contexts, tree.ret, held, m);
      AlikeCounted(store, born, nextStore, m);
      StoreDeref(m);
      DbUnguarded(limits, store0, list0, count0, storeList, storeCount, nextStore, contexts, tree.ret, held, m);
      held := held - multiset{m};
    }
  }

  /** A stored message has a valid topic, or neither topic nor payload because it was denied. */
  predicate BornOk(s: Stored) {
    if s.topic.Some? then ValidTopic(s.topic.value) else s.payloadlen == 0
  }

  /**
    The stored messages are as they were stored, but for the counts of references and the clients they were sent to.
  */
  ghost predicate Alike(store: Store, born: Store, next: nat) {
    && 0 < next && (forall m | m in born :: 0 < m < next && BornOk(born[m]))
    && (forall m | m in store ::
          m in born && store[m] == born[m].(refCount := store[m].refCount, dests := store[m].dests))
  }

  lemma AlikeBorn(store: Store, born: Store, next: nat, s: Stored)
    requires Alike(store, born, next) && BornOk(s)
    ensures next !in born && Alike(store[next := s], born[next := s], next + 1)
  {
  }

  lemma AlikeCounted(store: Store, born: Store, next: nat, m: nat)
    requires Alike(store, born, next) && m in store
    ensures Alike(Refed(store, m), born, next) && Alike(Derefed(store, m), born, next)
  {
  }

  lemma AlikeSent(store: Store, born: Store, next: nat, m: nat, dests: seq<nat>)
    requires Alike(store, born, next) && m in store
    ensures Alike(store[m := store[m].(dests := dests)], born, next)
  {
  }

  lemma AlikeRetained(store: Store, born: Store, next: nat, ret: map<Path, nat>, p: Path, m: nat)
    requires Alike(store, born, next) && (p in ret ==> ret[p] in store)
    ensures var store1 := if p in ret then Derefed(store, ret[p]) else store;
            Alike(store1, born, next) && (m in store1 ==> Alike(Refed(store1, m), born, next))
  {
    if p in ret { AlikeCounted(store, born, next, ret[p]); }
    var store1 := if p in ret then Derefed(store, ret[p]) else store;
    if m in store1 { AlikeCounted(store1, born, next, m); }
  }

  // ----- insertion and offers -----

  /** Neither is it sent nor recorded again for a client that was sent it already. */
  predicate Suppressed(limits: Limits, store: Store, c: nat, k: Key)
    requires k.store in store
  {
    !limits.allowDuplicates && k.dir == Out && !k.retain && c in store[k.store].dests
  }

  /** All the ways in which a message is queued for client `c`, or not. */
  ghost predicate Inserted(limits: Limits, s: Context, s': Context, store: Store, store': Store, c: nat, k: Key,
                           now: int, rc: nat) {
    k.store in store &&
    if !s.peer.named || Suppressed(limits, store, c, k) then rc == 0 && s' == s && store' == store
    else if !Accepts(s, k.qos, limits) then
      rc == 2 && store' == store
          && s' == s.(dropping := s.dropping || s.peer.connected || k.qos > 0 || limits.queueQos0)
    else
      var place := s.peer.connected && HasPlace(s, k.qos, limits);
      var state := if !place then Queued else if k.dir == Out then Ready(k) else WaitForPubrel;
      && rc == (if s.peer.connected && !place then 2 else 0)
      && Appended(s, Entry(k, state, false, now), s')
      && store' == Recorded(Refed(store, k.store), k, c, limits)
  }

  lemma NothingInserted(contexts: seq<Context>, c: nat)
    requires c < |contexts|
    ensures Only(c, contexts, contexts) && Untouched(contexts[c], contexts[c])
  {
    assert contexts == contexts[c := contexts[c]];
  }

  /** A retained copy is inserted, or not; a queue that does not drop anything takes it. */
  lemma RetainInserted(limits: Limits, c: nat, first: seq<Context>, before: seq<Context>, after: seq<Context>,
                       store: Store, store': Store, m: nat, mid: nat, qos: nat, now: int, rc: nat)
    requires c < |first| == |before| && m in store && (mid > 0 <==> qos > 0) && Only(c, before, after)
    requires before == first
             || (before == first[c := first[c].(lastMid := before[c].lastMid)] && before[c].lastMid < 65536)
    requires Inserted(limits, before[c], after[c], store, store', c, Key(m, mid, qos, true, Out), now, rc)
    ensures Only(c, first, after) && store'.Keys == store.Keys && forall x | x in store' ::
              store'[x].topic == store[x].topic && store'[x].qos == store[x].qos
    ensures var taken := before[c].peer.named && Accepts(before[c], qos, limits);
            && (if taken then GotRetained(first[c], after[c], m, qos) else Untouched(first[c], after[c]))
            && (NothingDropped(first[c], after[c]) ==> taken)
  {
    hide Accepts;
    assert after == first[c := after[c]];
  }

  lemma OfferDeclined(d: Mail, c: nat, clientQos: nat, contexts: seq<Context>, dests: seq<nat>)
    requires c < |contexts| && (!contexts[c].peer.named || !d.mayRead(c, d.topic))
    ensures OfferTurn(d, c, clientQos, contexts, dests, contexts, dests)
  {
    assert contexts == contexts[c := contexts[c]];
  }

  /** The packet id is new, and then the message is inserted, or not. */
  lemma OfferInserted(d: Mail, c: nat, clientQos: nat, first: seq<Context>, before: seq<Context>, after: seq<Context>,
                      store': Store, store: Store, mid: nat, now: int, rc: nat)
    requires c < |first| == |before| && first[c].peer.named && d.mayRead(c, d.topic) && d.m in store
    requires var msgQos := MsgQos(clientQos, d.qos, d.limits);
             && (before == first
                 || (before == first[c := first[c].(lastMid := before[c].lastMid)] && before[c].lastMid < 65536))
             && (mid > 0 <==> msgQos > 0) && Only(c, before, after)
             && Inserted(d.limits, before[c], after[c], store, store', c, Key(d.m, mid, msgQos, false, Out), now, rc)
    ensures d.m in store' && store'.Keys == store.Keys && forall x | x in store' ::
              store'[x].payloadlen == store[x].payloadlen
    ensures OfferTurn(d, c, clientQos, first, store[d.m].dests, after, store'[d.m].dests)
  {
    assert after == first[c := after[c]];
    AppendedOne(first[c], before[c], after[c], d, clientQos, mid, now);
  }

  lemma AppendedOne(s0: Context, s1: Context, s2: Context, d: Mail, clientQos: nat, mid: nat, now: int)
    requires s1 == s0.(lastMid := s1.lastMid)
    ensures var k := Key(d.m, mid, MsgQos(clientQos, d.qos, d.limits), false, Out);
            var state := if s1.peer.connected && HasPlace(s1, k.qos, d.limits) then Ready(k) else Queued;
            Appended(s1, Entry(k, state, false, now), s2) && (mid > 0 <==> k.qos > 0) ==> GotCopy(d, s0, s2, clientQos)
  {
  }

  /** Each offer at a node is made by one of its leaves. */
  ghost predicate ListedOffers(nodes: Nodes, path: map<nat, Path>, abs: map<(nat, Path), nat>, r: nat)
    requires r in nodes && r in path
  {
    forall i | 0 <= i < |nodes[r].subs| ::
          OffersAt(nodes, path, r)[i] in abs && abs[OffersAt(nodes, path, r)[i]] == nodes[r].subs[i].qos
  }

  lemma NoneMade(nodes: Nodes, path: map<nat, Path>, r: nat, offers: seq<(nat, Path)>)
    requires r in nodes && r in path
    ensures |OffersAt(nodes, path, r)| == |nodes[r].subs|
    ensures offers + OffersAt(nodes, path, r)[..0] == offers
    ensures OffersAt(nodes, path, r)[..|nodes[r].subs|] == OffersAt(nodes, path, r)
  {
  }

  /** One offer more has been made. */
  lemma OfferMade(d: Mail, nodes: Nodes, path: map<nat, Path>, abs: map<(nat, Path), nat>, r: nat, i: nat,
                  first: seq<Context>, had: seq<nat>, offers: seq<(nat, Path)>, before: seq<Context>, ds: seq<nat>,
                  after: seq<Context>, dests: seq<nat>)
    requires r in nodes && r in path && ListedOffers(nodes, path, abs, r) && i < |nodes[r].subs|
    requires Offered(d, abs, first, had, offers + OffersAt(nodes, path, r)[..i], before, ds)
    requires OfferTurn(d, nodes[r].subs[i].client, nodes[r].subs[i].qos, before, ds, after, dests)
    ensures |after| == |before| && Offered(d, abs, first, had, offers + OffersAt(nodes, path, r)[..i + 1], after, dests)
  {
    hide Wanted, GotCopy, Untouched, Offered;
    var made: seq<(nat, Path)> := OffersAt(nodes, path, r);
    assert made[i] == (nodes[r].subs[i].client, path[r]);
    OfferedMore(d, abs, first, had, offers + made[..i], before, ds, made[i], after, dests);
    assert offers + made[..i] + [made[i]] == offers + made[..i + 1];
  }

  lemma OffersSame(nodes: Nodes, nodes': Nodes, path: map<nat, Path>, x: nat)
    requires SameLeaves(nodes, nodes') && x in nodes && x in path
    ensures x in nodes' && OffersAt(nodes', path, x) == OffersAt(nodes, path, x)
  {
  }

  lemma GuardedStill(store: Store, m: nat)
    requires m in store
    ensures m in Refed(store, m) && Refed(store, m)[m].dests == store[m].dests
            && Refed(store, m)[m].payloadlen == store[m].payloadlen
  {
  }

  lemma NothingProcessed(d: Mail, abs: map<(nat, Path), nat>, nodes: Nodes, path: map<nat, Path>,
                         contexts: seq<Context>, dests: seq<nat>, calls: seq<Call>)
    ensures SameLeaves(nodes, nodes) && !SomeRetain(calls[..0]) && OffersOf(nodes, path, calls[..0]) == []
    ensures Offered(d, abs, contexts, dests, [], contexts, dests)
  {
  }

  /** What one more call adds. */
  lemma CallProcessed(calls: seq<Call>, j: nat, nodes0: Nodes, nodes: Nodes, path: map<nat, Path>, p: Path)
    requires j < |calls| && Targets(calls) <= nodes0.Keys && RetainAt(path, calls, p, true) && SameLeaves(nodes0, nodes)
    ensures calls[j].node in nodes && calls[j].node in path && (calls[j].setRetain ==> path[calls[j].node] == p)
    ensures SomeRetain(calls[..j + 1]) <==> SomeRetain(calls[..j]) || calls[j].setRetain
    ensures OffersOf(nodes0, path, calls[..j + 1]) == OffersOf(nodes0, path, calls[..j])
            + OffersAt(nodes, path, calls[j].node)
  {
    assert calls[j].node in Targets(calls);
    assert calls[..j + 1][..j] == calls[..j];
    OffersSame(nodes0, nodes, path, calls[j].node);
  }

  lemma RetainedWhen(ret: map<Path, nat>, at: map<Path, nat>, topic: string, retain: bool, m: nat, payloadlen: nat,
                     calls: seq<Call>)
    requires retain ==> (SomeRetain(calls) <==> Sub(Root, Tokens(topic)[0]) in at)
    ensures (if retain && SomeRetain(calls) then RetainedAfter(ret, topic, m, payloadlen) else ret)
            == RetainedIf(ret, at, topic, retain, m, payloadlen)
  {
  }

  lemma SameLeavesTrans(nodes0: Nodes, nodes1: Nodes, nodes2: Nodes)
    requires SameLeaves(nodes0, nodes1) && SameLeaves(nodes1, nodes2)
    ensures SameLeaves(nodes0, nodes2)
  {
  }

  lemma RetainedTwice(ret: map<Path, nat>, topic: string, m: nat, payloadlen: nat)
    ensures RetainedAfter(RetainedAfter(ret, topic, m, payloadlen), topic, m, payloadlen) ==
              RetainedAfter(ret, topic, m, payloadlen)
  {
  }

  ghost predicate SameLeaves(nodes: Nodes, nodes': Nodes) {
    nodes'.Keys == nodes.Keys && forall x | x in nodes :: nodes'[x].subs == nodes[x].subs
  }

  function SomeRetain(calls: seq<Call>): bool {
    calls != [] && (SomeRetain(calls[..|calls| - 1]) || calls[|calls| - 1].setRetain)
  }

  lemma {:induction false} SomeRetainAt(calls: seq<Call>, k: nat)
    requires k < |calls| && calls[k].setRetain
    ensures SomeRetain(calls)
  {
    if k < |calls| - 1 { SomeRetainAt(calls[..|calls| - 1], k); }
  }

  lemma OnlyOwnNode(calls: seq<Call>, path: map<nat, Path>, at: map<Path, nat>, topic: string)
    requires RetainAt(path, calls, FullPath(topic), true)
    ensures FullPath(topic) in at && at[FullPath(topic)] in Targets(calls) && at[FullPath(topic)] in path
            && path[at[FullPath(topic)]] == FullPath(topic)
            ==> SomeRetain(calls)
  {
    if FullPath(topic) in at && at[FullPath(topic)] in Targets(calls) {
      var k :| 0 <= k < |calls| && calls[k].node == at[FullPath(topic)];
      if calls[k].setRetain { SomeRetainAt(calls, k); }
    }
  }

  /** The retained messages after one more has been published; an empty one clears its topic. */
  ghost function RetainedAfter(ret: map<Path, nat>, topic: string, m: nat, payloadlen: nat): map<Path, nat> {
    if payloadlen > 0 then ret[FullPath(topic) := m] else ret - {FullPath(topic)}
  }

  /** The retained messages after message `m` has been handed on. */
  ghost function RetainedIf(ret: map<Path, nat>, at: map<Path, nat>, topic: string, retain: bool, m: nat,
                            payloadlen: nat): map<Path, nat> {
    if retain && Sub(Root, Tokens(topic)[0]) in at then RetainedAfter(ret, topic, m, payloadlen) else ret
  }

  /** The packet an entry is about to send. */
  function Outgoing(e: Entry, c: nat): Option<Packet> {
    match e.state
    case PublishQos0 => Some(Publish(c, e.key.store, e.key.mid, e.key.qos, e.key.retain, e.dup))
    case PublishQos1 => Some(Publish(c, e.key.store, e.key.mid, e.key.qos, e.key.retain, e.dup))
    case PublishQos2 => Some(Publish(c, e.key.store, e.key.mid, e.key.qos, e.key.retain, e.dup))
    case SendPubrec => Some(Pubrec(c, e.key.mid))
    case ResendPubrel => Some(Pubrel(c, e.key.mid))
    case ResendPubcomp => Some(Pubcomp(c, e.key.mid))
    case _ => None
  }

  function AfterSending(e: Entry, now: int): (r: Entry)
    ensures r.key == e.key
  {
    match e.state
    case PublishQos1 => e.(timestamp := now, dup := true, state := WaitForPuback)
    case PublishQos2 => e.(timestamp := now, dup := true, state := WaitForPubrec)
    case SendPubrec => e.(state := WaitForPubrel)
    case ResendPubrel => e.(state := WaitForPubcomp)
    case ResendPubcomp => e.(state := WaitForPubrel)
    case _ => e
  }

  /** What a walk over a queue leaves in it and sends, and whether it comes to the end. */
  datatype Written = Written(msgs: seq<Entry>, packets: seq<Packet>, done: bool)

  /** The walk from entry `i` on, when `left` packets can still be sent. */
  function WriteOut(msgs: seq<Entry>, i: nat, msgCount: nat, left: nat, c: nat, limits: Limits, now: int): Written
    requires i <= |msgs|
    decreases |msgs| - i, if i < |msgs| && msgs[i].state == Queued then 1 else 0
  {
    if i == |msgs| then Written(msgs, [], true)
    else
      var e, count := msgs[i], msgCount + if msgs[i].key.dir == In then 1 else 0;
      if e.state != Queued then
        var packet := Outgoing(e, c);
        if packet.None? then WriteOut(msgs, i + 1, count, left, c, limits, now)
        else if left == 0 then Written(msgs, [], false)
        else
          var rest := if e.state == PublishQos0
              then WriteOut(HeadPromoted(Removed(msgs, i), limits), i, count, left - 1, c, limits, now)
                      else WriteOut(msgs[i := AfterSending(e, now)], i + 1, count, left - 1, c, limits, now);
          rest.(packets := [packet.value] + rest.packets)
      else if e.key.dir == In && e.key.qos == 2 && (limits.maxInflight == 0 || count < limits.maxInflight) then
        WriteOut(msgs[i := e.(state := SendPubrec)], i, count, left, c, limits, now)
      else WriteOut(msgs, i + 1, count, left, c, limits, now)
  }

  /** The walk `w` has sent what `after` has more than `before`, and goes on as `rest`. */
  predicate Continues(w: Written, before: seq<Packet>, after: seq<Packet>, rest: Written) {
    w.msgs == rest.msgs && w.done == rest.done && before + w.packets == after + rest.packets
  }

  lemma ContinuesEnds(w: Written, before: seq<Packet>, after: seq<Packet>, rest: Written)
    ensures Continues(w, before, before, w)
    ensures Continues(w, before, after, rest) && rest.packets == [] ==>
              after == before + w.packets && w.msgs == rest.msgs && w.done == rest.done
  {
    assert after + [] == after;
  }

  lemma ContinuesSent(w: Written, before: seq<Packet>, after: seq<Packet>, p: Packet, rest: Written)
    requires Continues(w, before, after, rest) && rest.packets != [] && rest.packets[0] == p
    ensures Continues(w, before, after + [p], rest.(packets := rest.packets[1..]))
  {
    assert after + rest.packets == after + [p] + rest.packets[1..];
  }

  /** One turn of the walk. */
  lemma WriteOutStep(msgs: seq<Entry>, i: nat, msgCount: nat, left: nat, c: nat, limits: Limits, now: int)
    requires i <= |msgs|
    ensures var w := WriteOut(msgs, i, msgCount, left, c, limits, now);
            if i == |msgs| then w == Written(msgs, [], true)
            else
              var e, count := msgs[i], msgCount + if msgs[i].key.dir == In then 1 else 0;
              if e.state != Queued then
                if Outgoing(e, c).None? then e.state != PublishQos0 && AfterSending(e, now) == e
                    && w == WriteOut(msgs[i := e], i + 1, count, left, c, limits, now)
                else if left == 0 then w == Written(msgs, [], false)
                else
                  && w.packets != [] && w.packets[0] == Outgoing(e, c).value
                  && w.(packets := w.packets[1..]) == if e.state == PublishQos0
                     then WriteOut(HeadPromoted(Removed(msgs, i), limits), i, count, left - 1, c, limits, now)
                                                      else WriteOut(msgs[i := AfterSending(e, now)], i + 1, count,
                                                                    left - 1, c, limits, now)
              else if e.key.dir == In && e.key.qos == 2 && (limits.maxInflight == 0 || count < limits.maxInflight) then
                w == WriteOut(msgs[i := e.(state := SendPubrec)], i, count, left, c, limits, now)
              else w == WriteOut(msgs, i + 1, count, left, c, limits, now)
  {
    hide HeadPromoted, Removed;
    if i < |msgs| { assert msgs[i := msgs[i]] == msgs; }
  }

  // ----- timeouts -----

  /**
    In the queue of a connected client, just the entries that have waited too long for an answer are to send the packet
    of their phase again; no message goes from one phase to another.
  */
  ghost predicate Repeats(s: Context, s': Context, threshold: int, now: int) {
    if s.peer.connected then
      |s'.msgs| == |s.msgs| && forall k | 0 <= k < |s.msgs| :: Onward(s.msgs[k], s'.msgs[k], Overdue(threshold, now))
    else s'.msgs == s.msgs
  }

  lemma TimedOutOnward(msgs: seq<Entry>, msgs': seq<Entry>, threshold: int, now: int)
    requires StatesFit(msgs) && |msgs'| == |msgs|
    requires forall k | 0 <= k < |msgs| :: msgs'[k] == TimedOut(msgs[k], threshold, now)
    ensures forall k | 0 <= k < |msgs| :: Onward(msgs[k], msgs'[k], Overdue(threshold, now))
  {
    assert forall k | 0 <= k < |msgs| :: StateFits(msgs[k]);
  }

  // ----- what a walk sends, by where the messages stand -----

  /** The packet that a message calls for, by its direction and its phase (section 4.3). */
  predicate CallsFor(e: Entry, p: Packet, c: nat) {
    match PhaseOf(e)
    case Confirmed => p == Pubrel(c, e.key.mid)
    case Received => p == Pubrec(c, e.key.mid)
    case Parked => if e.key.dir == In then p == Pubrec(c, e.key.mid) else IsPublish(e, p, c)
    case _ => IsPublish(e, p, c)
  }

  predicate IsPublish(e: Entry, p: Packet, c: nat) {
    p == Publish(c, e.key.store, e.key.mid, e.key.qos, e.key.retain, e.dup)
  }

  /** A QoS 0 message is forgotten when it was sent. */
  predicate SentAway(e: Entry) {
    MayGo(e, Writing) && PhaseOf(e) != Confirmed
  }

  /** No packet was sent for an entry; after a complete walk none was due. */
  predicate Left(e: Entry, e': Entry, done: bool) {
    (e' == e && (done ==> !Due(e))) || Begins(e, e')
  }

  /**
    A queue, before and after it was written, and what was sent: for each entry, in order, its packet was sent, so that
    it awaits the answer, or is gone if it has QoS 0; or no packet was sent, and it is as before or was started.
  */
  predicate Wrote(before: seq<Entry>, after: seq<Entry>, packets: seq<Packet>, done: bool, c: nat)
    decreases |before|
  {
    if before == [] then after == [] && packets == []
    else
      || (after != [] && Left(before[0], after[0], done) && Wrote(before[1..], after[1..], packets, done, c))
      || (after != [] && packets != [] && CallsFor(before[0], packets[0], c) && Sent(before[0], after[0])
          && Wrote(before[1..], after[1..], packets[1..], done, c))
      || (packets != [] && CallsFor(before[0], packets[0], c) && SentAway(before[0])
          && Wrote(before[1..], after, packets[1..], done, c))
  }

  /** Some entries may be started. */
  predicate SomeBegin(before: seq<Entry>, after: seq<Entry>) {
    |after| == |before| && forall k | 0 <= k < |before| :: after[k] == before[k] || Begins(before[k], after[k])
  }

  lemma BeginsFirst(e: Entry, e1: Entry, e2: Entry, c: nat)
    requires e1 == e || Begins(e, e1)
    ensures forall done | Left(e1, e2, done) :: Left(e, e2, done)
    ensures forall p | CallsFor(e1, p, c) :: CallsFor(e, p, c)
    ensures (Sent(e1, e2) ==> Sent(e, e2)) && (SentAway(e1) ==> SentAway(e))
  {
  }

  /** To start before the walk is no different. */
  lemma {:induction false} WroteFrom(before: seq<Entry>, mid: seq<Entry>, after: seq<Entry>, packets: seq<Packet>,
                                     done: bool, c: nat)
    requires SomeBegin(before, mid) && Wrote(mid, after, packets, done, c)
    ensures Wrote(before, after, packets, done, c)
  {
    if before != [] {
      hide Left, CallsFor, Sent, SentAway, Begins;
      assert forall k | 0 <= k < |before| - 1 :: before[1..][k] == before[k + 1] && mid[1..][k] == mid[k + 1];
      BeginsFirst(before[0], mid[0], if after == [] then mid[0] else after[0], c);
      if after != [] && Left(mid[0], after[0], done) && Wrote(mid[1..], after[1..], packets, done, c) {
        WroteFrom(before[1..], mid[1..], after[1..], packets, done, c);
      } else if after != [] && packets != [] && CallsFor(mid[0], packets[0], c) && Sent(mid[0], after[0])
                && Wrote(mid[1..], after[1..], packets[1..], done, c) {
        WroteFrom(before[1..], mid[1..], after[1..], packets[1..], done, c);
      } else {
        WroteFrom(before[1..], mid[1..], after, packets[1..], done, c);
      }
    }
  }

  lemma {:induction false} WroteNothing(msgs: seq<Entry>, c: nat)
    ensures Wrote(msgs, msgs, [], false, c)
  {
    if msgs != [] { WroteNothing(msgs[1..], c); }
  }

  /** What the walk knows of its queue. */
  predicate Walkable(msgs: seq<Entry>) {
    StatesFit(msgs) && forall k | 0 <= k < |msgs| && msgs[k].key.dir == In :: msgs[k].key.qos == 2
  }

  /** What one turn does to its entry. */
  lemma TurnWrote(msgs: seq<Entry>, i: nat, c: nat, limits: Limits, now: int)
    requires Walkable(msgs) && i < |msgs|
    ensures var e := msgs[i];
            && (e.state == Queued && e.key.dir == In ==>
                  Begins(e, e.(state := SendPubrec)) && Walkable(msgs[i := e.(state := SendPubrec)]))
            && (e.state == Queued || Outgoing(e, c).None? ==> Left(e, e, true))
            && (e.state != Queued && Outgoing(e, c).Some? ==>
                  && CallsFor(e, Outgoing(e, c).value, c)
                  && (e.state != PublishQos0 ==>
                        Sent(e, AfterSending(e, now)) && Walkable(msgs[i := AfterSending(e, now)]))
                  && (e.state == PublishQos0 ==>
                        && SentAway(e) && Walkable(HeadPromoted(Removed(msgs, i), limits))
                        && SomeBegin(Removed(msgs, i), HeadPromoted(Removed(msgs, i), limits))))
  {
    hide HeadPromoted;
    var r := Removed(msgs, i);
    assert forall k | 0 <= k < |r| :: r[k] == msgs[if k < i then k else k + 1];
    HeadPromotedFits(r, limits);
    HeadPromotedStates(r, limits);
  }

  /** The walk from entry `i` on; entries before it may be started. */
  lemma {:induction false} WalkWrote(msgs: seq<Entry>, i: nat, msgCount: nat, left: nat, c: nat, limits: Limits,
                                     now: int)
    requires Walkable(msgs) && i <= |msgs|
    ensures var w := WriteOut(msgs, i, msgCount, left, c, limits, now);
            && i <= |w.msgs| && SomeBegin(msgs[..i], w.msgs[..i])
            && Wrote(msgs[i..], w.msgs[i..], w.packets, w.done, c)
    decreases |msgs| - i, if i < |msgs| && msgs[i].state == Queued then 1 else 0
  {
    hide HeadPromoted, AfterSending, WriteOut, Walkable, Outgoing, CallsFor, Sent, SentAway, Begins, Due, Removed,
         Wrote, SomeBegin, Left;
    WriteOutStep(msgs, i, msgCount, left, c, limits, now);
    WalkStops(msgs, i, c);
    if i < |msgs| {
      TurnWrote(msgs, i, c, limits, now);
      var e, count := msgs[i], msgCount + if msgs[i].key.dir == In then 1 else 0;
      if e.state != Queued {
        if Outgoing(e, c).None? {
          WalkWrote(msgs, i + 1, count, left, c, limits, now);
          assert msgs[i := e] == msgs;
          PutBack(msgs, msgs, i, WriteOut(msgs, i + 1, count, left, c, limits, now), c);
        } else if left > 0 {
          var packets := WriteOut(msgs, i, msgCount, left, c, limits, now).packets;
          assert packets == [packets[0]] + packets[1..];
          if e.state == PublishQos0 {
            var next := HeadPromoted(Removed(msgs, i), limits);
            RemovedParts(msgs, i);
            WalkWrote(next, i, count, left - 1, c, limits, now);
            SentAndGone(msgs, next, i, WriteOut(next, i, count, left - 1, c, limits, now), Outgoing(e, c).value, c);
          } else {
            var next := msgs[i := AfterSending(e, now)];
            WalkWrote(next, i + 1, count, left - 1, c, limits, now);
            SentAndStays(msgs, next, i, WriteOut(next, i + 1, count, left - 1, c, limits, now), Outgoing(e, c).value,
                         c);
          }
        }
      } else if e.key.dir == In && e.key.qos == 2 && (limits.maxInflight == 0 || count < limits.maxInflight) {
        var next := msgs[i := e.(state := SendPubrec)];
        WalkWrote(next, i, count, left, c, limits, now);
        StartedHere(msgs, next, i, WriteOut(next, i, count, left, c, limits, now), c);
      } else {
        WalkWrote(msgs, i + 1, count, left, c, limits, now);
        PutBack(msgs, msgs, i, WriteOut(msgs, i + 1, count, left, c, limits, now), c);
      }
    }
  }

  /** All of a walk: what was sent, and where the messages stand then. */
  lemma WalkWroteAll(msgs: seq<Entry>, left: nat, c: nat, limits: Limits, now: int)
    requires Walkable(msgs)
    ensures var w := WriteOut(msgs, 0, 0, left, c, limits, now);
            Wrote(msgs, w.msgs, w.packets, w.done, c)
  {
    hide Walkable, WriteOut, Wrote;
    WalkWrote(msgs, 0, 0, left, c, limits, now);
    var w := WriteOut(msgs, 0, 0, left, c, limits, now);
    assert msgs[0..] == msgs && w.msgs[0..] == w.msgs;
  }

  lemma WalkStops(msgs: seq<Entry>, i: nat, c: nat)
    requires i <= |msgs|
    ensures SomeBegin(msgs[..i], msgs[..i]) && Wrote(msgs[i..], msgs[i..], [], false, c)
    ensures i == |msgs| ==> Wrote(msgs[i..], msgs[i..], [], true, c)
  {
    WroteNothing(msgs[i..], c);
  }

  /** Entry `i` was started, and the walk goes on with it. */
  lemma StartedHere(msgs: seq<Entry>, next: seq<Entry>, i: nat, w: Written, c: nat)
    requires i < |msgs| == |next| && i <= |w.msgs| && next == msgs[i := next[i]] && Begins(msgs[i], next[i])
    requires SomeBegin(next[..i], w.msgs[..i]) && Wrote(next[i..], w.msgs[i..], w.packets, w.done, c)
    ensures SomeBegin(msgs[..i], w.msgs[..i]) && Wrote(msgs[i..], w.msgs[i..], w.packets, w.done, c)
  {
    assert next[..i] == msgs[..i];
    WroteFrom(msgs[i..], next[i..], w.msgs[i..], w.packets, w.done, c);
  }

  lemma RemovedParts(msgs: seq<Entry>, i: nat)
    requires i < |msgs|
    ensures Removed(msgs, i) == msgs[..i] + msgs[i + 1..] && |Removed(msgs, i)| == |msgs| - 1
  {
  }

  /** Nothing was sent for entry `i`. */
  lemma PutBack(msgs: seq<Entry>, next: seq<Entry>, i: nat, w: Written, c: nat)
    requires i < |msgs| && i + 1 <= |w.msgs| && SomeBegin(msgs[..i + 1], w.msgs[..i + 1])
    requires Wrote(msgs[i + 1..], w.msgs[i + 1..], w.packets, w.done, c) && Left(msgs[i], msgs[i], true)
    ensures SomeBegin(msgs[..i], w.msgs[..i]) && Wrote(msgs[i..], w.msgs[i..], w.packets, w.done, c)
  {
    hide Begins, Due, Sent, SentAway, CallsFor;
    Tails(msgs, w.msgs, i);
    assert msgs[..i + 1][i] == msgs[i] && w.msgs[..i + 1][i] == w.msgs[i];
  }

  lemma Tails(msgs: seq<Entry>, after: seq<Entry>, i: nat)
    requires i < |msgs| && i < |after|
    ensures msgs[i..] != [] && msgs[i..][0] == msgs[i] && msgs[i..][1..] == msgs[i + 1..]
    ensures after[i..] != [] && after[i..][0] == after[i] && after[i..][1..] == after[i + 1..]
    ensures forall k | 0 <= k < i :: msgs[..i][k] == msgs[..i + 1][k] && after[..i][k] == after[..i + 1][k]
  {
  }

  /** The packet of entry `i` was sent, and it stays. */
  lemma SentAndStays(msgs: seq<Entry>, next: seq<Entry>, i: nat, w: Written, p: Packet, c: nat)
    requires i < |msgs| == |next| && i + 1 <= |w.msgs| && next == msgs[i := next[i]]
    requires SomeBegin(next[..i + 1], w.msgs[..i + 1])
    requires Wrote(next[i + 1..], w.msgs[i + 1..], w.packets, w.done, c)
    requires CallsFor(msgs[i], p, c) && Sent(msgs[i], next[i])
    ensures SomeBegin(msgs[..i], w.msgs[..i]) && Wrote(msgs[i..], w.msgs[i..], [p] + w.packets, w.done, c)
  {
    Tails(msgs, w.msgs, i);
    assert next[i + 1..] == msgs[i + 1..] && ([p] + w.packets)[1..] == w.packets;
    assert next[..i + 1][i] == next[i] && w.msgs[..i + 1][i] == w.msgs[i];
    hide CallsFor, Due, SentAway, Wrote;
    assert w.msgs[i] == next[i];
    assert forall k | 0 <= k < i :: next[..i + 1][k] == msgs[k];
    assert SomeBegin(msgs[..i], w.msgs[..i]);
    SentHead(msgs[i..], w.msgs[i..], [p] + w.packets, w.done, c);
  }

  lemma SentHead(before: seq<Entry>, after: seq<Entry>, packets: seq<Packet>, done: bool, c: nat)
    requires before != [] && after != [] && packets != [] && CallsFor(before[0], packets[0], c)
    requires Sent(before[0], after[0]) && Wrote(before[1..], after[1..], packets[1..], done, c)
    ensures Wrote(before, after, packets, done, c)
  {
  }

  /** The packet of entry `i` was sent, and it is gone; others may be started then. */
  lemma SentAndGone(msgs: seq<Entry>, next: seq<Entry>, i: nat, w: Written, p: Packet, c: nat)
    requires i < |msgs| && i <= |w.msgs| && SomeBegin(msgs[..i] + msgs[i + 1..], next)
             && SomeBegin(next[..i], w.msgs[..i])
    requires Wrote(next[i..], w.msgs[i..], w.packets, w.done, c)
    requires CallsFor(msgs[i], p, c) && SentAway(msgs[i])
    ensures SomeBegin(msgs[..i], w.msgs[..i]) && Wrote(msgs[i..], w.msgs[i..], [p] + w.packets, w.done, c)
  {
    hide CallsFor, SentAway, Due, Sent;
    var r := msgs[..i] + msgs[i + 1..];
    assert msgs[i..][0] == msgs[i] && msgs[i..][1..] == msgs[i + 1..] && ([p] + w.packets)[1..] == w.packets;
    forall k | 0 <= k < i ensures w.msgs[..i][k] == msgs[..i][k] || Begins(msgs[..i][k], w.msgs[..i][k]) {
      assert r[k] == msgs[k] && next[..i][k] == next[k];
    }
    hide Begins;
    assert forall k | 0 <= k < |msgs| - i - 1 :: next[i..][k] == next[i + k] && msgs[i + 1..][k] == r[i + k];
    WroteFrom(msgs[i + 1..], next[i..], w.msgs[i..], w.packets, w.done, c);
  }

  predicate SentFor(p: Packet, k: Key, c: nat) {
    && p.client == c && p.mid == k.mid && !p.Suback? && !p.Unsuback?
    && (p.Publish? ==> p.message == k.store && p.qos == k.qos && p.retain == k.retain)
  }

  /** The packets follow the order of the queue, with at most one for each of its entries. */
  predicate InQueueOrder(packets: seq<Packet>, keys: seq<Key>, c: nat)
    decreases |keys|
  {
    packets == [] ||
    (keys != []
     && ((SentFor(packets[0], keys[0], c) && InQueueOrder(packets[1..], keys[1..], c))
         || InQueueOrder(packets, keys[1..], c)))
  }

  /** A session is sent its packets in the order in which they were queued, one for each message at most. */
  lemma {:induction false} WrittenInOrder(msgs: seq<Entry>, i: nat, msgCount: nat, left: nat, c: nat, limits: Limits,
                                          now: int)
    requires i <= |msgs|
    ensures var w := WriteOut(msgs, i, msgCount, left, c, limits, now);
            InQueueOrder(w.packets, Keys(msgs)[i..], c) && |w.packets| <= left && (!w.done ==> |w.packets| == left)
    decreases |msgs| - i, if i < |msgs| && msgs[i].state == Queued then 1 else 0
  {
    hide HeadPromoted, AfterSending, WriteOut, InQueueOrder, SentFor;
    WriteOutStep(msgs, i, msgCount, left, c, limits, now);
    OrderOfNone(Keys(msgs)[i..], c);
    if i < |msgs| {
      var e, count := msgs[i], msgCount + if msgs[i].key.dir == In then 1 else 0;
      var w := WriteOut(msgs, i, msgCount, left, c, limits, now);
      assert Keys(msgs)[i..][0] == e.key && Keys(msgs)[i..][1..] == Keys(msgs)[i + 1..];
      OrderOfMore(w.packets, Keys(msgs)[i..], e, c);
      if e.state != Queued {
        if Outgoing(e, c).None? {
          assert msgs[i := e] == msgs;
          WrittenInOrder(msgs, i + 1, count, left, c, limits, now);
        } else if left > 0 {
          if e.state == PublishQos0 {
            KeysAfterSending(msgs, i, limits);
            WrittenInOrder(HeadPromoted(Removed(msgs, i), limits), i, count, left - 1, c, limits, now);
          } else {
            SameKeys(msgs, msgs[i := AfterSending(e, now)]);
            WrittenInOrder(msgs[i := AfterSending(e, now)], i + 1, count, left - 1, c, limits, now);
          }
        }
      } else if e.key.dir == In && e.key.qos == 2 && (limits.maxInflight == 0 || count < limits.maxInflight) {
        SameKeys(msgs, msgs[i := e.(state := SendPubrec)]);
        WrittenInOrder(msgs[i := e.(state := SendPubrec)], i, count, left, c, limits, now);
      } else {
        WrittenInOrder(msgs, i + 1, count, left, c, limits, now);
      }
    }
  }

  lemma OrderOfNone(keys: seq<Key>, c: nat)
    ensures InQueueOrder([], keys, c)
  {
  }

  /** One entry more in front, with its packet or without. */
  lemma OrderOfMore(packets: seq<Packet>, keys: seq<Key>, e: Entry, c: nat)
    requires keys != [] && keys[0] == e.key
    ensures InQueueOrder(packets, keys[1..], c) ==> InQueueOrder(packets, keys, c)
    ensures packets != [] && Outgoing(e, c) == Some(packets[0]) && InQueueOrder(packets[1..], keys[1..], c) ==>
              InQueueOrder(packets, keys, c)
  {
  }

  /** An entry that is gone leaves the keys of those behind it. */
  lemma KeysAfterSending(msgs: seq<Entry>, i: nat, limits: Limits)
    requires i < |msgs|
    ensures Keys(HeadPromoted(Removed(msgs, i), limits))[i..] == Keys(msgs)[i + 1..]
  {
    hide HeadPromoted;
    HeadPromotedKeys(Removed(msgs, i), limits);
    KeysRemoved(msgs, i);
    assert Removed(Keys(msgs), i)[i..] == Keys(msgs)[i + 1..];
  }

  lemma StillDue(msgs: seq<Entry>, i: nat, limits: Limits, k: nat)
    requires i < k < |msgs| && msgs[k].state != Queued
    ensures HeadPromoted(Removed(msgs, i), limits)[k - 1] == msgs[k]
  {
    hide HeadPromoted;
    HeadPromotedStates(Removed(msgs, i), limits);
  }

  /** A walk that comes to the end has sent everything that was due. */
  lemma {:induction false} DueIsWritten(msgs: seq<Entry>, i: nat, msgCount: nat, left: nat, c: nat, limits: Limits,
                                        now: int, k: nat)
    requires i <= k < |msgs| && Outgoing(msgs[k], c).Some?
    ensures var w := WriteOut(msgs, i, msgCount, left, c, limits, now);
            w.done ==> Outgoing(msgs[k], c).value in w.packets
    decreases |msgs| - i, if i < |msgs| && msgs[i].state == Queued then 1 else 0
  {
    hide WriteOut, HeadPromoted, AfterSending;
    WriteOutStep(msgs, i, msgCount, left, c, limits, now);
    var e, count := msgs[i], msgCount + if msgs[i].key.dir == In then 1 else 0;
    if e.state != Queued {
      if Outgoing(e, c).None? {
        assert msgs[i := e] == msgs;
        DueIsWritten(msgs, i + 1, count, left, c, limits, now, k);
      } else if left > 0 && i < k {
        if e.state == PublishQos0 {
          StillDue(msgs, i, limits, k);
          DueIsWritten(HeadPromoted(Removed(msgs, i), limits), i, count, left - 1, c, limits, now, k - 1);
        } else {
          DueIsWritten(msgs[i := AfterSending(e, now)], i + 1, count, left - 1, c, limits, now, k);
        }
      }
    } else if e.key.dir == In && e.key.qos == 2 && (limits.maxInflight == 0 || count < limits.maxInflight) {
      DueIsWritten(msgs[i := e.(state := SendPubrec)], i, count, left, c, limits, now, k);
    } else {
      DueIsWritten(msgs, i + 1, count, left, c, limits, now, k);
    }
  }

  /** A message that is held outlives the one that was retained in its place, which may be itself. */
  lemma KeptApart(store: Store, contexts: seq<Context>, ret: map<Path, nat>, held: multiset<nat>, p: Path, m: nat)
    requires CountedRight(store, contexts, ret, held, m) && m in held && (p in ret ==> ret[p] in store)
    ensures var store1 := if p in ret then Derefed(store, ret[p]) else store;
            && m in store && m in store1 && store1[m] == store[m].(refCount := store1[m].refCount)
            && m in Refed(store1, m) && Refed(store1, m)[m] == store[m].(refCount := Refed(store1, m)[m].refCount)
  {
    if p in ret && ret[p] == m { RetCountClear(ret, p, m); }
  }

  lemma DbRetained(limits: Limits, store: Store, list: seq<nat>, count: int, list': seq<nat>, count': int, next: nat,
                   contexts: seq<Context>, ret: map<Path, nat>, held: multiset<nat>, p: Path, m: nat,
                   message: Option<nat>)
    requires DbOk(limits, store, list, count, next, contexts, ret, held) && m in held
             && (message.Some? ==> message.value == m)
    requires p in ret ==> ret[p] in store
    requires ListOk(if p in ret then Derefed(store, ret[p]) else store, list', count', next)
    ensures m in store
    ensures var store1 := if p in ret then Derefed(store, ret[p]) else store;
            m in store1 && store1[m] == store[m].(refCount := store1[m].refCount)
            && m in Refed(store1, m) && Refed(store1, m)[m] == store[m].(refCount := Refed(store1, m)[m].refCount)
            && DbOk(limits, if message.Some? then Refed(store1, m) else store1, list', count', next, contexts,
                    if message.Some? then ret[p := m] else ret - {p}, held)
  {
    CountedRetained(store, contexts, ret, held, p, message);
    CountedRetained(store, contexts, ret, held, p, Some(m));
    var store1 := if p in ret then Derefed(store, ret[p]) else store;
    assert CountedRight(store, contexts, ret, held, m);
    KeptApart(store, contexts, ret, held, p, m);
    hide ListOk, AllCounted, SessionsOk, Derefed, Refed;
    SessionsStill(limits, store, store1, contexts);
    SessionsStill(limits, store, Refed(store1, m), contexts);
  }

  /** A guard is taken. */
  lemma DbGuarded(limits: Limits, store: Store, list: seq<nat>, count: int, next: nat, contexts: seq<Context>,
                  ret: map<Path, nat>, held: multiset<nat>, m: nat)
    requires DbOk(limits, store, list, count, next, contexts, ret, held) && m in store
    ensures DbOk(limits, Refed(store, m), list, count, next, contexts, ret, held + multiset{m})
  {
    CountedHeld(store, contexts, ret, held, m);
    SessionsStill(limits, store, Refed(store, m), contexts);
  }

  lemma DbListed(limits: Limits, store: Store, list: seq<nat>, count: int, next: nat, contexts: seq<Context>,
                 ret: map<Path, nat>, held: multiset<nat>, m: nat)
    requires DbOk(limits, store, list, count, next, contexts, ret, held)
    ensures ListOk(store, list, count, next) && (m in held ==> m in store)
  {
    assert CountedRight(store, contexts, ret, held, m);
  }

  /** A guard is given back. */
  lemma DbUnguarded(limits: Limits, store: Store, list: seq<nat>, count: int, list': seq<nat>, count': int, next: nat,
                    contexts: seq<Context>, ret: map<Path, nat>, held: multiset<nat>, m: nat)
    requires DbOk(limits, store, list, count, next, contexts, ret, held) && m in held && m in store
             && ListOk(Derefed(store, m), list', count', next)
    ensures DbOk(limits, Derefed(store, m), list', count', next, contexts, ret, held - multiset{m})
  {
    CountedHeld(store, contexts, ret, held, m);
    SessionsStill(limits, store, Derefed(store, m), contexts);
  }

  lemma SessionsStill(limits: Limits, store: Store, store': Store, contexts: seq<Context>)
    requires SessionsOk(limits, store, contexts)
    requires forall m | m in store' ::
               m in store && store'[m].sourceMid == store[m].sourceMid && store'[m].retain == store[m].retain
    ensures SessionsOk(limits, store', contexts)
  {
    forall d: nat ensures Fine(limits, store', contexts, d) {
      assert Fine(limits, store, contexts, d);
    }
  }

  lemma Twice<T>(s: seq<T>, i: nat, x: T, y: T)
    requires i < |s|
    ensures s[i := x][i := y] == s[i := y]
  {
  }

  ghost function HeadUnlinked(s: Context): (s': Context)
    requires s.msgs != []
    ensures Unlinked(s, 0, s') && s'.msgs == s.msgs[1..] && s'.peer == s.peer
  {
    KeysRemoved(s.msgs, 0);
    assert Removed(s.msgs, 0) == s.msgs[1..];
    s.(msgs := s.msgs[1..], last := if |s.msgs| == 1 then None else Some(|s.msgs| - 2), msgCount := s.msgCount - 1,
       msgCount12 := s.msgCount12 - if s.msgs[0].key.qos > 0 then 1 else 0)
  }

  // ----- which entries an acknowledgement takes away -----

  /** The loop has not stopped once it has looked at the first `n` entries. */
  predicate LooksOn(keys: seq<Key>, n: nat, mid: nat, dir: Direction, max: nat) {
    n < |keys| ==> |Others(keys[..n], mid, dir)| == n || |Others(keys[..n], mid, dir)| <= max
  }

  /** The loop has looked at the first `v` entries: those that it passed are `after[..i]`. */
  predicate Visited(before: seq<Key>, after: seq<Key>, i: nat, v: nat, mid: nat, dir: Direction) {
    v <= |before| && i <= |after| && after[..i] == Others(before[..v], mid, dir) && after[i..] == before[v..]
  }

  /** The loop stops as soon as it may after `v` entries, and all of these with the id and the direction are gone. */
  ghost predicate DeletedUpTo(before: seq<Key>, after: seq<Key>, v: nat, mid: nat, dir: Direction, max: nat) {
    && v <= |before| && after == Others(before[..v], mid, dir) + before[v..]
    && (v < |before| ==> !LooksOn(before, v, mid, dir, max)) && forall n: nat | n < v ::
         LooksOn(before, n, mid, dir, max)
  }

  lemma KeyCount(msgs: seq<Entry>)
    ensures |Keys(msgs)| == |msgs|
  {
  }

  lemma NoneVisited(keys: seq<Key>, msgs: seq<Entry>, mid: nat, dir: Direction, max: nat)
    ensures Visited(keys, keys, 0, 0, mid, dir) && LooksOn(keys, 0, mid, dir, max) && WindowStarted(msgs[..0], max)
  {
  }

  lemma {:induction false} OthersOfMore(keys: seq<Key>, k: Key, mid: nat, dir: Direction)
    ensures Others(keys + [k], mid, dir) == Others(keys, mid, dir) + if Answers(k, mid, dir) then [] else [k]
  {
    if keys == [] {
      assert [k][1..] == [];
    } else {
      assert (keys + [k])[1..] == keys[1..] + [k];
      OthersOfMore(keys[1..], k, mid, dir);
    }
  }

  lemma OneVisited(before: seq<Key>, keys: seq<Key>, after: seq<Key>, i: nat, v: nat, mid: nat, dir: Direction,
                   answered: bool)
    requires Visited(before, keys, i, v, mid, dir) && i < |keys| && (answered <==> Answers(keys[i], mid, dir))
    requires after == if answered then Removed(keys, i) else keys
    ensures v < |before| && Visited(before, after, if answered then i else i + 1, v + 1, mid, dir)
  {
    hide Others;
    assert keys[i] == keys[i..][0] == before[v];
    assert before[..v + 1] == before[..v] + [before[v]];
    OthersOfMore(before[..v], before[v], mid, dir);
    assert before[v..][1..] == before[v + 1..];
    if answered {
      assert after[..i] == keys[..i] && after[i..] == keys[i..][1..];
    } else {
      assert keys[..i + 1] == keys[..i] + [keys[i]] && keys[i + 1..] == keys[i..][1..];
    }
  }

  lemma StopOrGo(before: seq<Key>, after: seq<Key>, i: nat, v: nat, mid: nat, dir: Direction, max: nat)
    requires Visited(before, after, i, v, mid, dir) && i <= v
             && (forall n: nat | n < v :: LooksOn(before, n, mid, dir, max))
    ensures i > max && i < v ==> DeletedUpTo(before, after, v, mid, dir, max)
    ensures !(i > max && i < v) ==> forall n: nat | n <= v :: LooksOn(before, n, mid, dir, max)
  {
    hide Others;
    assert |after[..i]| == i && after[..i] + after[i..] == after;
  }

  lemma AllVisited(before: seq<Key>, after: seq<Key>, i: nat, v: nat, mid: nat, dir: Direction, max: nat)
    requires Visited(before, after, i, v, mid, dir) && i == |after| && forall n: nat | n <= v ::
               LooksOn(before, n, mid, dir, max)
    ensures DeletedUpTo(before, after, v, mid, dir, max)
  {
    hide Others, LooksOn;
    assert after[i..] == [] && after[..i] == after && before[v..] == [];
  }

  lemma StartedMore(msgs: seq<Entry>, i: nat, max: nat)
    requires i < |msgs| && WindowStarted(msgs[..i], max) && (i < max ==> msgs[i].state != Queued)
    ensures WindowStarted(msgs[..i + 1], max)
  {
    assert forall k | 0 <= k < i :: msgs[..i + 1][k] == msgs[..i][k];
  }

  lemma StartedAll(msgs: seq<Entry>, i: nat, max: nat)
    requires i <= |msgs| && WindowStarted(msgs[..i], max) && (i == |msgs| || i > max)
    ensures WindowStarted(msgs, max)
  {
    assert forall k | 0 <= k < i :: msgs[k] == msgs[..i][k];
  }

  /** Where only one entry has the id and the direction, an acknowledgement takes away this one and no other. */
  lemma DeletedOne(before: seq<Key>, after: seq<Key>, v: nat, mid: nat, dir: Direction, max: nat, i: nat)
    requires DeletedUpTo(before, after, v, mid, dir, max)
    requires i < |before| && forall k | 0 <= k < |before| :: Answers(before[k], mid, dir) <==> k == i
    ensures after == Removed(before, i)
  {
    OthersAll(before[..if v <= i then v else i], mid, dir);
    assert v <= i ==> LooksOn(before, v, mid, dir, max);
    hide Others, Removed;
    OthersButOne(before[..v], i, mid, dir);
    RemovedInFront(before, v, i);
  }

  lemma RemovedInFront(keys: seq<Key>, v: nat, i: nat)
    requires i < v <= |keys|
    ensures Removed(keys[..v], i) + keys[v..] == Removed(keys, i)
  {
  }

  /** Where none has, it takes away nothing. */
  lemma DeletedNone(before: seq<Key>, after: seq<Key>, v: nat, mid: nat, dir: Direction, max: nat)
    requires DeletedUpTo(before, after, v, mid, dir, max) && forall k | 0 <= k < |before| ::
               !Answers(before[k], mid, dir)
    ensures after == before
  {
    OthersAll(before[..v], mid, dir);
  }

  lemma {:induction false} OthersAll(keys: seq<Key>, mid: nat, dir: Direction)
    requires forall k | 0 <= k < |keys| :: !Answers(keys[k], mid, dir)
    ensures Others(keys, mid, dir) == keys
  {
    if keys != [] { OthersAll(keys[1..], mid, dir); }
  }

  lemma {:induction false} OthersButOne(keys: seq<Key>, i: nat, mid: nat, dir: Direction)
    requires i < |keys| && forall k | 0 <= k < |keys| :: Answers(keys[k], mid, dir) <==> k == i
    ensures Others(keys, mid, dir) == Removed(keys, i)
  {
    if i == 0 {
      OthersAll(keys[1..], mid, dir);
    } else {
      OthersButOne(keys[1..], i - 1, mid, dir);
      assert Removed(keys, i) == [keys[0]] + Removed(keys[1..], i - 1);
    }
  }

  /** The entries that an acknowledgement does not concern all stay. */
  lemma {:induction false} OthersKept(before: seq<Key>, after: seq<Key>, v: nat, mid: nat, dir: Direction, max: nat)
    requires DeletedUpTo(before, after, v, mid, dir, max)
    ensures Others(after, mid, dir) == Others(before, mid, dir)
  {
    OthersTwice(before[..v], mid, dir);
    OthersAppend(Others(before[..v], mid, dir), before[v..], mid, dir);
    OthersAppend(before[..v], before[v..], mid, dir);
    assert before[..v] + before[v..] == before;
  }

  lemma {:induction false} OthersTwice(keys: seq<Key>, mid: nat, dir: Direction)
    ensures Others(Others(keys, mid, dir), mid, dir) == Others(keys, mid, dir)
  {
    if keys != [] {
      var rest := Others(keys[1..], mid, dir);
      OthersTwice(keys[1..], mid, dir);
      assert [] + rest == rest && ([keys[0]] + rest)[1..] == rest;
    }
  }

  lemma {:induction false} OthersAppend(a: seq<Key>, b: seq<Key>, mid: nat, dir: Direction)
    ensures Others(a + b, mid, dir) == Others(a, mid, dir) + Others(b, mid, dir)
  {
    hide Answers;
    if a == [] {
      assert a + b == b && Others(a, mid, dir) == [];
    } else {
      assert (a + b)[1..] == a[1..] + b && (a + b)[0] == a[0];
      OthersAppend(a[1..], b, mid, dir);
      var head := if Answers(a[0], mid, dir) then [] else [a[0]];
      assert head + (Others(a[1..], mid, dir) + Others(b, mid, dir)) ==
             head + Others(a[1..], mid, dir) + Others(b, mid, dir);
    }
  }

  /** Removing an entry starts others but puts none back to waiting. */
  lemma StartedStay(msgs: seq<Entry>, i: nat, limits: Limits)
    requires i < |msgs| && WindowStarted(msgs[..i], limits.maxInflight)
    ensures var r := HeadPromoted(Removed(msgs, i), limits);
            |r| == |msgs| - 1 && WindowStarted(r[..i], limits.maxInflight)
  {
    var r := Removed(msgs, i);
    HeadPromotedStates(r, limits);
    assert forall k | 0 <= k < i :: r[k] == msgs[..i][k];
  }

  /** The entries up to number `k` all wait for a place. */
  predicate WaitUpTo(msgs: seq<Entry>, k: nat) {
    k < |msgs| && forall j | 0 <= j <= k :: msgs[j].state == Queued
  }

  /** Exactly the waiting entries at the head are started; no other entry changes. */
  lemma HeadPromotedStates(msgs: seq<Entry>, limits: Limits)
    ensures |HeadPromoted(msgs, limits)| == |msgs|
    ensures forall k: nat | k < |msgs| ::
              HeadPromoted(msgs, limits)[k] ==
              if limits.maxInflight > 0 && WaitUpTo(msgs, k) then msgs[k].(state := PromotedState(msgs[k])) else msgs[k]
  {
    hide PromotedState, HeadPromoted, WaitUpTo;
    forall k: nat | k < |msgs|
      ensures HeadPromoted(msgs, limits)[k] ==
              if limits.maxInflight > 0 && WaitUpTo(msgs, k) then msgs[k].(state := PromotedState(msgs[k])) else msgs[k]
    {
      HeadPromotedAt(msgs, limits, k);
    }
  }

  /** What that loop starts is due, an incoming message for its PUBREC. */
  lemma HeadStartsDue(msgs: seq<Entry>, limits: Limits)
    requires forall k | 0 <= k < |msgs| && msgs[k].key.dir == In :: msgs[k].key.qos == 2
    ensures |HeadPromoted(msgs, limits)| == |msgs|
    ensures forall k | 0 <= k < |msgs| ::
              var e := HeadPromoted(msgs, limits)[k]; e == msgs[k] || (Begins(msgs[k], e) && Due(e))
  {
    hide HeadPromoted;
    HeadPromotedStates(msgs, limits);
  }

  lemma {:induction false} HeadPromotedAt(msgs: seq<Entry>, limits: Limits, k: nat)
    requires k < |msgs|
    ensures HeadPromoted(msgs, limits)[k] ==
            if limits.maxInflight > 0 && WaitUpTo(msgs, k) then msgs[k].(state := PromotedState(msgs[k])) else msgs[k]
  {
    hide PromotedState;
    if k > 0 && msgs[0].state == Queued {
      assert msgs[1..][k - 1] == msgs[k];
      WaitFurther(msgs, k);
      HeadPromotedAt(msgs[1..], limits, k - 1);
    }
  }

  lemma WaitFurther(msgs: seq<Entry>, k: nat)
    requires 0 < k < |msgs| && msgs[0].state == Queued
    ensures WaitUpTo(msgs, k) <==> WaitUpTo(msgs[1..], k - 1)
  {
    assert forall j | 0 <= j < |msgs| - 1 :: msgs[1..][j] == msgs[j + 1];
    if WaitUpTo(msgs[1..], k - 1) {
      forall j | 0 <= j <= k ensures msgs[j].state == Queued {
        if j > 0 { assert msgs[1..][j - 1].state == Queued; }
      }
    }
  }

  lemma DbEmptied(limits: Limits, store: Store, list: seq<nat>, count: int, next: nat, contexts: seq<Context>,
                  ret: map<Path, nat>, held: multiset<nat>, c: nat, s: Context)
    requires DbOk(limits, store, list, count, next, contexts, ret, held) && c < |contexts| && contexts[c].msgs == []
    requires s.peer == contexts[c].peer && s.msgs == [] && s.last == None && s.msgCount == 0 && s.msgCount12 == 0
    ensures DbOk(limits, store, list, count, next, contexts[c := s], ret, held)
  {
    assert Fine(limits, store, contexts, c);
    CountedSameKeys(store, contexts, ret, held, c, s);
    SessionReplaced(limits, store, store, contexts, c, s);
  }

  /** The client joins those the message was sent to: for live outgoing messages, when duplicates are to be avoided. */
  function Recorded(store: Store, k: Key, c: nat, limits: Limits): Store
    requires k.store in store
  {
    if !limits.allowDuplicates && k.dir == Out && !k.retain
    then store[k.store := store[k.store].(dests := store[k.store].dests + [c])]
    else store
  }

  lemma SameKeys(before: seq<Entry>, after: seq<Entry>)
    requires |before| == |after| && forall k | 0 <= k < |before| :: after[k].key == before[k].key
    ensures Keys(after) == Keys(before)
  {
  }

  lemma UnlinkedKeys(s: Context, i: nat, limits: Limits)
    requires i < |s.msgs|
    ensures Keys(HeadPromoted(Removed(s.msgs, i), limits)) == Removed(Keys(s.msgs), i)
    ensures |HeadPromoted(Removed(s.msgs, i), limits)| == |s.msgs| - 1
    ensures StatesFit(s.msgs) ==> StatesFit(HeadPromoted(Removed(s.msgs, i), limits))
  {
    KeysRemoved(s.msgs, i);
    HeadPromotedFits(Removed(s.msgs, i), limits);
    HeadPromotedKeys(Removed(s.msgs, i), limits);
    assert |Keys(HeadPromoted(Removed(s.msgs, i), limits))| == |HeadPromoted(Removed(s.msgs, i), limits)|;
  }

  /** What an acknowledgement of the client does to its queue. */
  function Answer(mid: nat, dir: Direction): Cause {
    if dir == Out then Acknowledged(mid) else Released(mid)
  }

  /** An entry goes, and those at the head may start. */
  lemma RemovedFollows(msgs: seq<Entry>, i: nat, limits: Limits)
    requires i < |msgs| && IncomingOk(Keys(msgs))
    ensures forall cause | Stepwise(cause) && MayGo(msgs[i], cause) ::
              Follows(msgs, HeadPromoted(Removed(msgs, i), limits), cause)
  {
    hide Follows, HeadPromoted;
    var r := Removed(msgs, i);
    var p := HeadPromoted(r, limits);
    HeadPromotedStates(r, limits);
    assert forall k | 0 <= k < |msgs| :: Keys(msgs)[k] == msgs[k].key;
    forall cause | Stepwise(cause) && MayGo(msgs[i], cause) ensures Follows(msgs, p, cause) {
      FollowsRemoved(msgs, i, cause);
      FollowsEach(r, p, cause);
      FollowsTrans(msgs, r, p, cause);
    }
  }

  lemma TailCounted(s: Context)
    ensures CountersOk(s) ==> s.last == if s.msgs == [] then None else Some(|s.msgs| - 1)
  {
  }

  lemma HasUnlinked(s: Context, i: nat, limits: Limits, s': Context)
    requires i < |s.msgs| && s'.msgs == HeadPromoted(Removed(s.msgs, i), limits)
    requires s' == s.(msgs := s'.msgs, last := s'.last, msgCount := s.msgCount - 1,
                      msgCount12 := s.msgCount12 - if s.msgs[i].key.qos > 0 then 1 else 0)
    requires CountersOk(s) ==> s'.last == if |s.msgs| == 1 then None else Some(|s.msgs| - 2)
    ensures Unlinked(s, i, s')
  {
    hide Keys, Removed, HeadPromoted, CountersOk, StatesFit;
    UnlinkedKeys(s, i, limits);
  }

  function PromotedState(e: Entry): State {
    if e.key.dir == Out then Ready(e.key) else if e.key.qos == 2 then SendPubrec else e.state
  }

  /** The entries at the head of the queue that wait for a place are started, all of them, unless the limit is 0. */
  function HeadPromoted(msgs: seq<Entry>, limits: Limits): (r: seq<Entry>)
    ensures |r| == |msgs|
  {
    if limits.maxInflight > 0 && msgs != [] && msgs[0].state == Queued
    then [msgs[0].(state := PromotedState(msgs[0]))] + HeadPromoted(msgs[1..], limits)
    else msgs
  }

  lemma OnePromoted(msgs: seq<Entry>, i: nat, limits: Limits)
    requires i < |msgs| && msgs[i].state == Queued && 0 < limits.maxInflight
    ensures var more := msgs[i := msgs[i].(state := PromotedState(msgs[i]))];
            more[..i + 1] + HeadPromoted(more[i + 1..], limits) == msgs[..i] + HeadPromoted(msgs[i..], limits)
  {
    hide PromotedState;
    var e := msgs[i].(state := PromotedState(msgs[i]));
    assert msgs[i..][1..] == msgs[i := e][i + 1..];
    assert msgs[i := e][..i + 1] == msgs[..i] + [e];
  }

  lemma NonePromoted(msgs: seq<Entry>, limits: Limits)
    requires limits.maxInflight == 0 || msgs == [] || msgs[0].state != Queued
    ensures HeadPromoted(msgs, limits) == msgs
  {
  }

  lemma {:induction false} HeadPromotedKeys(msgs: seq<Entry>, limits: Limits)
    ensures Keys(HeadPromoted(msgs, limits)) == Keys(msgs)
  {
    if limits.maxInflight > 0 && msgs != [] && msgs[0].state == Queued {
      HeadPromotedKeys(msgs[1..], limits);
      var r := HeadPromoted(msgs[1..], limits);
      assert |r| == |Keys(r)| == |msgs| - 1;
      assert forall k | 0 <= k < |r| :: r[k].key == Keys(r)[k] == Keys(msgs[1..])[k];
    }
  }

  lemma {:induction false} HeadPromotedFits(msgs: seq<Entry>, limits: Limits)
    ensures StatesFit(msgs) ==> StatesFit(HeadPromoted(msgs, limits))
  {
    if limits.maxInflight > 0 && msgs != [] && msgs[0].state == Queued {
      HeadPromotedFits(msgs[1..], limits);
      assert StatesFit(msgs) ==> StatesFit(msgs[1..]) by {
        assert forall k | 0 <= k < |msgs| - 1 :: msgs[1..][k] == msgs[k + 1];
      }
    }
  }

  lemma StoredNew(limits: Limits, store: Store, list: seq<nat>, count: int, next: nat, contexts: seq<Context>,
                  ret: map<Path, nat>, held: multiset<nat>, message: Stored)
    requires DbOk(limits, store, list, count, next, contexts, ret, held) && message.refCount == 0
             && (message.topic.Some? ==> ValidTopic(message.topic.value))
    ensures DbOk(limits, store[next := message], [next] + list, count + 1, next + 1, contexts, ret, held)
  {
    WithOneMore(list, next);
    var store' := store[next := message];
    forall m ensures CountedRight(store', contexts, ret, held, m) {
      assert CountedRight(store, contexts, ret, held, m);
    }
    forall c: nat ensures Fine(limits, store', contexts, c) {
      assert Fine(limits, store, contexts, c);
      if c < |contexts| {
        var keys := Keys(contexts[c].msgs);
        forall i | 0 <= i < |keys| ensures keys[i].store != next {
          EntryStored(store, contexts, ret, held, c, i);
        }
      }
    }
  }
}
