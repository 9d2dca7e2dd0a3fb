/** Restoring the database from a file, chunk by chunk. */
module Restore {
  import opened Wrappers
  import opened Topics
  import opened Tree
  import opened Search
  import opened Subs
  import opened Wire
  import opened Archive
  import opened Snapshot
  import opened Walk
  import opened Rebuild
  import opened Persist

  /** How a restore ends: with a result, or in the use of a message that has been freed. */
  datatype Ending = Ends(rc: nat) | Crashes

  /** What the broker relies on when it takes a chunk that it has written itself. */
  predicate Sane(im: Image, c: Chunk) {
    && NewId(im, c)
    && match c
       case SubChunk(_, topic, _) => ValidFilter(Text(CString(topic)))
       case RetainChunk(id) =>
         id in im.store && im.store[id].topic.Some? ==> ValidTopic(im.store[id].topic.value)
       case _ => true
  }

  predicate InTable(store: map<nat, Message>, load: map<nat, Option<nat>>) {
    && (forall m | m in store :: m in load && load[m] == Some(m))
    && (forall m | m in load && load[m].Some? :: load[m] == Some(m))
  }

  /**
    The database that is being restored, and the table `msg_store_load` of the messages that the file has named: where
    each is, or nothing once it was freed through the table.
  */
  class Loader {
    const tree: SubTree
    var sessions: seq<Session>
    var store: map<nat, Message>
    var refs: map<nat, nat>
    var load: map<nat, Option<nat>>
    var lastId: nat

    ghost predicate Whole()
      reads this`sessions, tree
    {
      && tree.Valid() && (forall c: nat :: c in tree.subsOf <==> c < |sessions|)
      && forall t: string :: Sub(Root, t) in tree.at <==> HasTop(tree.abs, t)
    }

    /** The counts are right, and every message that is there is in the table. */
    ghost predicate Valid()
      reads this, tree
    {
      Whole() && Balanced(State()) && InTable(store, load)
    }

    ghost function State(): Image
      reads this, tree
    {
      Image(sessions, store, refs, load.Keys, lastId, tree.abs, tree.ret)
    }

    constructor ()
      ensures Valid() && State() == EMPTY && fresh(tree)
    {
      tree := new SubTree();
      sessions, store, refs, load, lastId := [], map[], map[], map[], 0;
      new;
      assert load.Keys == {};
    }

    /** `_db_find_or_add_context`. */
    method FindOrAddContext(id: bytes, lastMid: nat) returns (i: nat)
      requires Whole()
      modifies this`sessions, tree`subsOf
      ensures Whole() && i == IndexOf(old(sessions), id) && i < |sessions|
              && sessions == FindOrAdd(old(sessions), id, lastMid)
    {
      hide Sound;
      i := 0;
      while i < |sessions| && sessions[i].id != id
        invariant i <= |sessions| && forall j | 0 <= j < i :: sessions[j].id != id
      {
        i := i + 1;
      }
      FirstIndex(sessions, id, i);
      if i == |sessions| {
        tree.AddClient(i);
        sessions := sessions + [Session(id, 0, [])];
      }
      if lastMid != 0 {
        sessions := sessions[i := sessions[i].(lastMid := lastMid)];
      }
    }

    /** What the table has for an id that it knows: a message that can be used, or none. */
    predicate Alive(id: nat)
      reads this
      requires id in load
    {
      load[id].Some? && load[id].value in store
    }

    /** One chunk. */
    method Take(c: Chunk) returns (end: Ending)
      requires Valid() && Sane(State(), c)
      modifies this, tree
      ensures end == Ends(0) ==> Valid()
      ensures match Apply(old(State()), c)
              case Done(im) => end == Ends(0) && im == State()
              case Corrupt => end == Ends(1)
              case Crashed => end == Crashes
    {
      hide Whole, InTable, FindOrAdd, WithEntry, IndexOf, CString, Text, ValidLevels, FullPath, Balanced, Requeue,
           QueueRefs;
      ghost var im := State();
      StaysBalanced(im, c);
      match c {
        case Config(_, id) =>
          Number(id);
        case StoreChunk(id, sourceId, sourceMid, _, topic, qos, retain, payload) =>
          Add(id, Message(CString(sourceId), sourceMid, NoneIfEmpty(topic), qos, retain != 0, payload));
        case ClientChunk(client, lastMid, _) =>
          var _ := FindOrAddContext(CString(client), lastMid);
        case MsgChunk(client, id, mid, qos, retain, direction, state, dup) =>
          if id !in load {
            return Ends(1);
          }
          KnownAlive(id);
          if !Alive(id) {
            return Crashes;
          }
          QueueEntry(CString(client), Queued(id, mid, qos, retain, direction, state, dup));
        case SubChunk(client, topic, qos) =>
          RestoreSub(CString(client), Text(CString(topic)), qos as int);
        case RetainChunk(id) =>
          if id !in load {
            return Ends(1);
          }
          KnownAlive(id);
          if !Alive(id) || store[id].topic.None? {
            return Crashes;
          }
          QueueAgain(id);
      }
      return Ends(0);
    }

    lemma KnownAlive(id: nat)
      requires Valid()
      ensures store.Keys == refs.Keys && (id in load ==> (Alive(id) <==> id in store))
      ensures id in store ==> id in load && load[id] == Some(id)
    {
      hide QueueRefs, FullPath;
    }

    method Number(id: nat)
      requires Whole()
      modifies this`lastId
      ensures Whole() && lastId == id
    {
      lastId := id;
    }

    /** A stored message of the file, under the id that it has there or under the next one. */
    method Add(id: nat, m: Message)
      requires Whole() && InTable(store, load) && (if id == 0 then lastId + 1 else id) !in load
      modifies this`store, this`refs, this`load, this`lastId
      ensures Whole() && InTable(store, load)
      ensures var n := if id == 0 then old(lastId) + 1 else id;
              State() == old(State()).(store := old(store)[n := m], refs := old(refs)[n := 0],
                                       load := old(load.Keys) + {n}, lastId := if id == 0 then n else old(lastId))
    {
      hide Whole, InTable;
      var n := id;
      if id == 0 {
        lastId := lastId + 1;
        n := lastId;
      }
      Added(store, load, n, m);
      store, refs, load := store[n := m], refs[n := 0], load[n := Some(n)];
    }

    /** `_db_client_msg_restore` of a message that is there. */
    method QueueEntry(client: bytes, q: Queued)
      requires Whole() && q.store in refs
      modifies this`refs, this`sessions, tree`subsOf
      ensures Whole()
      ensures State() == Ref(old(State()), q.store).(sessions := WithEntry(old(sessions), client, q))
    {
      hide Sound, FindOrAdd, IndexOf, HasTop;
      refs := refs[q.store := refs[q.store] + 1];
      var i := FindOrAddContext(client, 0);
      sessions := sessions[i := sessions[i].(msgs := sessions[i].msgs + [q])];
    }

    /** `mosquitto__db_msg_store_deref`: one reference less; `left` is what the pointer is afterwards. */
    method Deref(m: nat) returns (left: Option<nat>)
      requires m in refs && refs[m] > 0
      modifies this`store, this`refs
      ensures State() == Snapshot.Deref(old(State()), m)
      ensures left == if m in refs then Some(m) else None
    {
      refs := refs[m := refs[m] - 1];
      left := Some(m);
      if refs[m] == 0 {
        store, refs := store - {m}, refs - {m};
        left := None;
      }
    }

    /** `_db_restore_sub`. */
    method RestoreSub(client: bytes, filter: string, qos: nat)
      requires Whole() && ValidFilter(filter)
      modifies this`sessions, tree
      ensures Whole() && sessions == FindOrAdd(old(sessions), client, 0) && tree.ret == old(tree.ret)
      ensures tree.abs == old(tree.abs)[(IndexOf(old(sessions), client), FullPath(filter)) := qos]
    {
      hide Sound, FindOrAdd, IndexOf, HasTop, ValidLevels, FullPath, Tokens;
      var i := FindOrAddContext(client, 0);
      ghost var abs := tree.abs;
      var _ := tree.SubAdd(i, filter, qos);
      TopAdded(abs, (i, FullPath(filter)), qos, filter);
    }

    /**
      `mqtt3_db_messages_queue` without a source, while the message is protected by a reference of its own: nothing is
      delivered, but it becomes the retained message of its topic if it is marked so and the tree has the top of the
      topic. When the protection ends, it is freed if nothing holds it, and the table forgets it.
    */
    method QueueAgain(id: nat)
      requires Valid() && id in store && store[id].topic.Some? && ValidTopic(store[id].topic.value)
      modifies this`store, this`refs, this`load, tree
      ensures Valid() && State() == Requeue(old(State()), id)
    {
      hide Whole, InTable, BalancedBut, PutAgain, ValidTopic;
      ghost var im := State();
      Requeued(im, id);
      Guarded(im, id);
      KnownAlive(id);
      refs := refs[id := refs[id] + 1];
      PutAgainGuarded(State(), id);
      SearchAgain(id);
      var left := Deref(id);
      Forgotten(im.store, store, load, id, left);
      load := load[id := left];
      assert load.Keys == im.load;
    }

    /** The search for the nodes of its topic. */
    method SearchAgain(id: nat)
      requires Whole() && BalancedBut(State(), Some(id)) && id in store && store[id].topic.Some?
               && ValidTopic(store[id].topic.value)
      modifies this`store, this`refs, tree
      ensures Whole() && State() == PutAgain(old(State()), id)
    {
      hide Sound, RetainAt, Full, LiteralLevels, Labels, Reached, FullPath, Targets, Tokens, HasTop, BalancedBut, Put;
      var m := store[id];
      ghost var abs := tree.abs;
      var calls := tree.TopicCalls(m.topic.value, m.retain);
      OwnCall(tree.path, tree.at, calls, FullPath(m.topic.value));
      ProcessCalls(calls, id, m);
    }

    /** `_subs_process` for all calls of the walk, of which one at most has to do with the retained message. */
    method ProcessCalls(calls: seq<Call>, id: nat, m: Message)
      requires Whole() && BalancedBut(State(), Some(id)) && id in store && store[id] == m && m.topic.Some?
               && ValidTopic(m.topic.value)
      requires NoRepeats(calls) && Targets(calls) <= tree.nodes.Keys
               && RetainAt(tree.path, calls, FullPath(m.topic.value), true)
      modifies this`store, this`refs, tree`nodes, tree`ret
      ensures Whole()
      ensures State() == if m.retain && exists k :: 0 <= k < |calls| && calls[k].setRetain
              then Put(old(State()), FullPath(m.topic.value), if m.payload != [] then Some(id) else None)
              else old(State())
    {
      hide Sound, RetainAt, Full, LiteralLevels, Labels, FullPath, Targets, BalancedBut, Put, HasTop;
      ghost var im, p, message := State(), FullPath(m.topic.value), if m.payload != [] then Some(id) else None;
      ghost var done := false;
      for j := 0 to |calls|
        invariant Whole() && RetainAt(tree.path, calls, p, true) && Targets(calls) <= tree.nodes.Keys
        invariant State() == if done then Put(im, p, message) else im
        invariant done <==> m.retain && exists k :: 0 <= k < j && calls[k].setRetain
      {
        OneCall(tree.path, calls, p, j);
        if m.retain && calls[j].setRetain {
          SoundShape(tree.nodes, tree.next, tree.path, tree.at, tree.abs, tree.ret, tree.subsOf);
          OnlyCall(tree.nodes, tree.path, tree.at, calls, p, j);
          Keep(calls[j].node, id, m);
          done := true;
        }
      }
    }

    /** `hier->retained` is replaced: the message that was there loses a reference, and the new one gets it. */
    method Keep(r: nat, id: nat, m: Message)
      requires Whole() && BalancedBut(State(), Some(id)) && id in store && store[id] == m && m.topic.Some?
               && ValidTopic(m.topic.value)
      requires r in tree.nodes && r in tree.path && tree.path[r] == FullPath(m.topic.value)
      modifies this`store, this`refs, tree`nodes, tree`ret
      ensures Whole() && tree.nodes.Keys == old(tree.nodes.Keys)
      ensures State() == Put(old(State()), FullPath(m.topic.value), if m.payload != [] then Some(id) else None)
    {
      hide Sound, Full, LiteralLevels, Labels, HasTop, FullPath, BalancedBut, ValidTopic;
      FullPathIsFull(m.topic.value);
      LiteralTokens(m.topic.value);
      tree.RetainedAt(r);
      RetainedHeld(State(), id, tree.path[r]);
      var there := tree.nodes[r].retained;
      if there.Some? {
        var _ := Deref(there.value);
      }
      if m.payload != [] {
        tree.SetRetained(r, Some(id));
        refs := refs[id := refs[id] + 1];
      } else {
        tree.SetRetained(r, None);
      }
    }
  }

  lemma OnlyCall(nodes: Nodes, path: map<nat, Path>, at: map<Path, nat>, calls: seq<Call>, p: Path, j: nat)
    requires Named(nodes, path, at) && NoRepeats(calls) && Targets(calls) <= nodes.Keys
             && RetainAt(path, calls, p, true)
    requires j < |calls| && calls[j].setRetain
    ensures forall k | 0 <= k < |calls| && calls[k].setRetain :: k == j
  {
    forall k | 0 <= k < |calls| && calls[k].setRetain ensures k == j {
      OneCall(path, calls, p, j);
      OneCall(path, calls, p, k);
      assert at[path[calls[k].node]] == calls[k].node && at[path[calls[j].node]] == calls[j].node;
    }
  }

  lemma Added(store: map<nat, Message>, load: map<nat, Option<nat>>, n: nat, m: Message)
    requires InTable(store, load)
    ensures InTable(store[n := m], load[n := Some(n)]) && load[n := Some(n)].Keys == load.Keys + {n}
  {
  }

  /** The table forgets a message that is freed through it. */
  lemma Forgotten(before: map<nat, Message>, store: map<nat, Message>, load: map<nat, Option<nat>>, id: nat,
                  left: Option<nat>)
    requires InTable(before, load) && id in before && store.Keys <= before.Keys
             && left == if id in store then Some(id) else None
    ensures InTable(store, load[id := left])
  {
  }

  lemma {:induction false} FirstIndex(sessions: seq<Session>, id: bytes, i: nat)
    requires i <= |sessions| && (forall j | 0 <= j < i :: sessions[j].id != id)
             && (i < |sessions| ==> sessions[i].id == id)
    ensures IndexOf(sessions, id) == i
  {
  }

  lemma OneCall(path: map<nat, Path>, calls: seq<Call>, p: Path, j: nat)
    requires RetainAt(path, calls, p, true) && j < |calls|
    ensures calls[j].node in path && (calls[j].setRetain <==> path[calls[j].node] == p)
            && calls[j].node in Targets(calls)
  {
  }

  lemma OwnCall(path: map<nat, Path>, at: map<Path, nat>, calls: seq<Call>, p: Path)
    requires RetainAt(path, calls, p, true)
    ensures p in at && at[p] in Targets(calls) && at[p] in path && path[at[p]] == p ==>
              exists k :: 0 <= k < |calls| && calls[k].setRetain
    ensures calls == [] ==> !exists k :: 0 <= k < |calls| && calls[k].setRetain
  {
    if p in at && at[p] in Targets(calls) {
      var k :| 0 <= k < |calls| && calls[k].node == at[p];
    }
  }

  // ----- the whole file -----

  ghost predicate SaneRun(cs: seq<Chunk>) {
    forall i {:trigger cs[..i]} | 0 <= i < |cs| && Fold(EMPTY, cs[..i]).Done? :: Sane(Fold(EMPTY, cs[..i]).im, cs[i])
  }

  /** The version of a file with an intact header, and what follows it. */
  function Opened(file: bytes): Option<(nat, bytes)> {
    if |file| < 23 || file[..15] != MAGIC then None
    else
      var version := TakeU32(file[19..]).value;
      if version.0 > DB_VERSION then None else Some(version)
  }

  /** What comes of the chunks that can be read: they are taken up to the first that makes trouble. */
  function EndOf(contents: Contents): Ending {
    match Fold(EMPTY, contents.chunks)
    case Done(_) => if contents.intact then Ends(0) else Ends(1)
    case Corrupt => Ends(1)
    case Crashed => Crashes
  }

  /**
    `mqtt3_db_restore` of a file that is there: the chunks are taken one after the other, up to the end or to the first
    that cannot be read or taken. Chunks of other kinds are skipped, and an empty file is no error.
  */
  method RestoreFile(file: bytes, loader: Loader) returns (end: Ending)
    requires loader.Valid() && loader.State() == EMPTY
    requires Opened(file).Some? ==> SaneRun(ReadAll(Opened(file).value.1, Opened(file).value.0).chunks)
    modifies loader, loader.tree
    ensures (file == [] ==> end == Ends(0)) && (file != [] && Opened(file).None? ==> end == Ends(1))
    ensures Opened(file).None? ==> loader.State() == EMPTY
    ensures Opened(file).Some? ==>
              var contents := ReadAll(Opened(file).value.1, Opened(file).value.0);
              end == EndOf(contents)
              && (end == Ends(0) ==> loader.Valid() && Fold(EMPTY, contents.chunks) == Done(loader.State()))
  {
    hide ReadChunk, ReadAll, Sane, SaneRun, Apply, Fold, Opened;
    NotOpened();
    if file == [] {
      return Ends(0);
    }
    var start := Opened(file);
    if start.None? {
      return Ends(1);
    }
    var version, rest := start.value.0, start.value.1;
    ghost var all := ReadAll(rest, version);
    ghost var taken: seq<Chunk> := [];
    NothingTaken(rest, version);
    while |rest| >= 2
      invariant loader.Valid() && Fold(EMPTY, taken) == Done(loader.State())
      invariant GoesOn(all, taken, rest, version)
      decreases |rest|
    {
      var c := ReadChunk(rest, version);
      if c.None? {
        ReadFails(all, taken, rest, version);
        return Ends(1);
      }
      if c.value.0.Some? {
        var chunk := c.value.0.value;
        OneTaken(all, taken, rest, version, chunk, c.value.1);
        SaneNext(all.chunks, |taken|, taken, loader.State());
        end := loader.Take(chunk);
        if end != Ends(0) {
          return;
        }
        taken := taken + [chunk];
      } else {
        OneSkipped(all, taken, rest, version, c.value.1);
      }
      rest := c.value.1;
    }
    AllTaken(all, taken, rest, version);
    return Ends(0);
  }

  lemma NotOpened()
    ensures Opened([]).None?
  {
  }

  /** The chunks `taken` and what can be read from the rest are all there is. */
  ghost predicate GoesOn(all: Contents, taken: seq<Chunk>, rest: bytes, version: nat) {
    all == Contents(taken + ReadAll(rest, version).chunks, ReadAll(rest, version).intact)
  }

  lemma NothingTaken(rest: bytes, version: nat)
    ensures GoesOn(ReadAll(rest, version), [], rest, version) && Fold(EMPTY, []) == Done(EMPTY)
  {
    assert [] + ReadAll(rest, version).chunks == ReadAll(rest, version).chunks;
  }

  lemma OneTaken(all: Contents, taken: seq<Chunk>, rest: bytes, version: nat, chunk: Chunk, more: bytes)
    requires GoesOn(all, taken, rest, version) && |rest| >= 2 && ReadChunk(rest, version) == Some((Some(chunk), more))
    ensures GoesOn(all, taken + [chunk], more, version) && |taken| < |all.chunks| && all.chunks[..|taken|] == taken
            && all.chunks[|taken|] == chunk
    ensures Fold(EMPTY, taken).Done? ==>
              var t := Apply(Fold(EMPTY, taken).im, chunk);
              Fold(EMPTY, taken + [chunk]) == t && (!t.Done? ==> Fold(EMPTY, all.chunks) == t)
  {
    hide ReadChunk, Fold, Apply, ReadAll;
    var after := ReadAll(more, version);
    ReadOne(rest, version, chunk, more);
    ChunkBetween(taken, chunk, after.chunks);
    FoldOneMore(taken, chunk, after.chunks);
  }

  lemma ReadOne(rest: bytes, version: nat, chunk: Chunk, more: bytes)
    requires |rest| >= 2 && ReadChunk(rest, version) == Some((Some(chunk), more))
    ensures ReadAll(rest, version) == Contents([chunk] + ReadAll(more, version).chunks, ReadAll(more, version).intact)
  {
    hide ReadChunk;
  }

  lemma ChunkBetween(taken: seq<Chunk>, chunk: Chunk, after: seq<Chunk>)
    ensures var all := taken + ([chunk] + after);
            all == (taken + [chunk]) + after && |taken| < |all| && all[..|taken|] == taken && all[|taken|] == chunk
  {
  }

  lemma FoldOneMore(taken: seq<Chunk>, chunk: Chunk, after: seq<Chunk>)
    ensures Fold(EMPTY, taken).Done? ==>
              var t := Apply(Fold(EMPTY, taken).im, chunk);
              Fold(EMPTY, taken + [chunk]) == t && (!t.Done? ==> Fold(EMPTY, (taken + [chunk]) + after) == t)
  {
    hide Apply, Fold;
    FoldAppend(EMPTY, taken, [chunk]);
    if Fold(EMPTY, taken).Done? { FoldOne(Fold(EMPTY, taken).im, chunk); }
    FoldAppend(EMPTY, taken + [chunk], after);
  }

  lemma OneSkipped(all: Contents, taken: seq<Chunk>, rest: bytes, version: nat, more: bytes)
    requires GoesOn(all, taken, rest, version) && |rest| >= 2 && ReadChunk(rest, version) == Some((None, more))
    ensures GoesOn(all, taken, more, version)
  {
    assert [] + ReadAll(more, version).chunks == ReadAll(more, version).chunks;
  }

  lemma ReadFails(all: Contents, taken: seq<Chunk>, rest: bytes, version: nat)
    requires GoesOn(all, taken, rest, version) && |rest| >= 2 && ReadChunk(rest, version).None?
    ensures all == Contents(taken, false)
  {
    assert taken + [] == taken;
  }

  lemma AllTaken(all: Contents, taken: seq<Chunk>, rest: bytes, version: nat)
    requires GoesOn(all, taken, rest, version) && |rest| < 2
    ensures all == Contents(taken, true)
  {
    assert taken + [] == taken;
  }

  lemma SaneNext(cs: seq<Chunk>, i: nat, taken: seq<Chunk>, im: Image)
    requires SaneRun(cs) && i < |cs| && cs[..i] == taken && Fold(EMPTY, taken) == Done(im)
    ensures Sane(im, cs[i])
  {
  }

  // ----- restore after backup -----

  lemma {:induction false} MessageIndex(list: seq<Stored>, id: nat) returns (i: nat)
    requires MessageAt(list, id).Some?
    ensures i < |list| && list[i].id == id && list[i].message == MessageAt(list, id).value
  {
    if list[|list| - 1].id == id {
      i := |list| - 1;
    } else {
      i := MessageIndex(list[..|list| - 1], id);
    }
  }

  /** After the stored messages and the clients, everything that the tree chunks need is there. */
  lemma StoreReady(list: seq<Stored>, clients: seq<Client>, ret: map<Path, nat>, im: Image)
    requires StoreFits(list) && ClientsFit(clients) && RetainedFit(ret, list) && FrontDone(im, clients, list)
    ensures Ready(im, ret, clients, list)
  {
    hide StringsFit, SessionFits, OfSys, Balanced;
    forall p | p in ret && Goes(list, ret[p])
      ensures ret[p] in im.store && im.store[ret[p]] == MessageAt(list, ret[p]).value
    {
      var i := MessageIndex(list, ret[p]);
      StoreOfKeys(list, i);
    }
  }

  /** What the chunks before those of the tree leave. */
  ghost predicate FrontDone(im: Image, clients: seq<Client>, list: seq<Stored>) {
    Balanced(im) && im == Image(Saved(clients), StoreOf(list), im.refs, StoreOf(list).Keys, im.lastId, map[], map[])
  }

  function Front(shutdown: bool, lastId: nat, list: seq<Stored>, clients: seq<Client>, now: nat): seq<Chunk>
    requires StoreFits(list)
  {
    [Config(shutdown, lastId)] + StoreChunks(list) + ClientChunks(clients, now)
  }

  lemma {:induction false} StaysBalancedAll(im: Image, cs: seq<Chunk>)
    requires Balanced(im) && forall i | 0 <= i < |cs| :: !cs[i].StoreChunk?
    ensures Fold(im, cs).Done? ==> Balanced(Fold(im, cs).im)
  {
    hide Balanced, Apply;
    if cs != [] {
      var n := |cs| - 1;
      StaysBalancedAll(im, cs[..n]);
      if Fold(im, cs[..n]).Done? { StaysBalanced(Fold(im, cs[..n]).im, cs[n]); }
    }
  }

  lemma {:induction false} NoneStored(clients: seq<Client>, now: nat)
    ensures forall i | 0 <= i < |ClientChunks(clients, now)| :: !ClientChunks(clients, now)[i].StoreChunk?
  {
    if clients != [] {
      NoneStored(clients[..|clients| - 1], now);
      NoneStoredIn(clients[|clients| - 1].session.id, clients[|clients| - 1].session.msgs);
    }
  }

  lemma {:induction false} NoneStoredIn(id: bytes, msgs: seq<Queued>)
    ensures forall i | 0 <= i < |MsgChunks(id, msgs)| :: !MsgChunks(id, msgs)[i].StoreChunk?
  {
    if msgs != [] { NoneStoredIn(id, msgs[..|msgs| - 1]); }
  }

  /** The file is taken as far as the tree just when every message that a saved session waits for was saved. */
  lemma SavedFront(list: seq<Stored>, clients: seq<Client>, shutdown: bool, lastId: nat, now: nat)
    requires StoreFits(list) && ClientsFit(clients)
    ensures var t := Fold(EMPTY, Front(shutdown, lastId, list, clients, now));
            if AllKept(clients, StoreOf(list)) then t.Done? && t.im.lastId == lastId && FrontDone(t.im, clients, list)
            else t == Corrupt
  {
    hide StoreChunks, ClientChunks, StoreFits, ClientsFit, StoreOf, Saved, Fold, AllKept, Balanced;
    var config := Config(shutdown, lastId);
    FoldOne(EMPTY, config);
    FoldStore(EMPTY.(lastId := lastId), list);
    FoldAppend(EMPTY, [config], StoreChunks(list));
    var store := StoreOf(list);
    var im := EMPTY.(lastId := lastId, store := store, refs := Unused(store), load := store.Keys);
    FoldClients(im, clients, now);
    UnusedBalanced(im);
    NoneStored(clients, now);
    StaysBalancedAll(im, ClientChunks(clients, now));
    FoldAppend(EMPTY, [config] + StoreChunks(list), ClientChunks(clients, now));
  }

  lemma UnusedBalanced(im: Image)
    requires im.refs == Unused(im.store) && im.load == im.store.Keys && im.sessions == [] && im.ret == map[]
    ensures Balanced(im)
  {
  }

  /** What the saved chunks build up, at every point of the way. */
  lemma SavedImage(front: seq<Chunk>, cs: seq<Chunk>, list: seq<Stored>, clients: seq<Client>,
                   abs: map<(nat, Path), nat>, ret: map<Path, nat>, shutdown: bool, lastId: nat, now: nat)
    requires StoreFits(list) && ClientsFit(clients) && RetainedFit(ret, list)
    requires front == Front(shutdown, lastId, list, clients, now)
    requires forall i | 0 <= i < |cs| :: Stems(cs[i], abs, ret, clients, list)
    ensures var t := Fold(EMPTY, front + cs);
            if !AllKept(clients, StoreOf(list)) then t == Corrupt
            else if !AllThere(cs, list, Saved(clients)) then t == Crashed
            else t.Done? && Fold(EMPTY, front).Done? && FrontDone(Fold(EMPTY, front).im, clients, list)
                 && Fold(EMPTY, front).im.lastId == lastId
                 && BuiltUp(t.im, Fold(EMPTY, front).im, cs, abs, clients, list)
  {
    hide Apply, Front, StoreFits, ClientsFit, RetainedFit, Stems, BuiltUp, Ready, StoreOf, Saved, AllKept, AllThere,
         Fold, Balanced;
    SavedFront(list, clients, shutdown, lastId, now);
    FoldAppend(EMPTY, front, cs);
    if AllKept(clients, StoreOf(list)) {
      var im := Fold(EMPTY, front).im;
      StoreReady(list, clients, ret, im);
      FoldTree(im, cs, abs, ret, clients, list);
    }
  }

  /** A tree chunk names a valid filter, or a message with a valid topic. */
  lemma StemsSane(c: Chunk, im: Image, start: Image, list: seq<Stored>, clients: seq<Client>,
                  abs: map<(nat, Path), nat>, ret: map<Path, nat>)
    requires Stems(c, abs, ret, clients, list) && SubsFit(abs, clients) && RetainedFit(ret, list)
             && Ready(start, ret, clients, list)
    requires forall m | m in im.store :: m in start.store && im.store[m] == start.store[m]
    ensures Sane(im, c)
  {
    hide ValidLevels, Split, ClientsFit, FilterAt, Full, OfSys, Balanced;
    if k: (nat, Path) :| k in abs && k.0 < |clients| && clients[k.0].persistent && abs[k] < 256 && Full(k.1)
                         && OneByteEach(FilterAt(k.1)) && c == SubChunkOf(clients, Leaf(k.0, abs[k]), FilterAt(k.1)) {
      TextBack(FilterAt(k.1));
    } else {
      var p :| p in ret && Goes(list, ret[p]) && c == RetainChunk(ret[p]);
    }
  }

  /** The chunk of a stored message comes after those of the messages before it. */
  lemma {:induction false} StoreAt(list: seq<Stored>, i: nat) returns (k: nat)
    requires StoreFits(list) && i < |StoreChunks(list)|
    ensures k < |list| && StoreChunks(list)[..i] == StoreChunks(list[..k])
            && StoreChunks(list)[i] == StoreChunkOf(list[k])
  {
    hide StoreChunkOf, StringsFit;
    var n := |list| - 1;
    var before := StoreChunks(list[..n]);
    if i < |before| {
      k := StoreAt(list[..n], i);
      assert list[..n][..k] == list[..k];
      assert StoreChunks(list)[..i] == before[..i];
    } else {
      k := n;
      assert StoreChunks(list)[..i] == before;
    }
  }

  lemma {:induction false} StoreOfIds(list: seq<Stored>, m: nat)
    requires m in StoreOf(list)
    ensures exists i :: 0 <= i < |list| && list[i].id == m
  {
    var n := |list| - 1;
    if list[n].id != m {
      StoreOfIds(list[..n], m);
      var i :| 0 <= i < n && list[..n][i].id == m;
      assert list[i].id == m;
    }
  }

  lemma FrontSane(list: seq<Stored>, clients: seq<Client>, shutdown: bool, lastId: nat, now: nat, i: nat)
    requires StoreFits(list) && i < |Front(shutdown, lastId, list, clients, now)|
    ensures var front := Front(shutdown, lastId, list, clients, now);
            Fold(EMPTY, front[..i]).Done? ==> Sane(Fold(EMPTY, front[..i]).im, front[i])
  {
    hide Fold, StoreChunkOf, StringsFit;
    var config, stores, rest := Config(shutdown, lastId), StoreChunks(list), ClientChunks(clients, now);
    var front := Front(shutdown, lastId, list, clients, now);
    ClientKinds(clients, now);
    NoneStored(clients, now);
    if 1 <= i < 1 + |stores| {
      var k := StoreAt(list, i - 1);
      assert front[..i] == [config] + stores[..i - 1] && front[i] == stores[i - 1];
      FoldOne(EMPTY, config);
      FoldStore(EMPTY.(lastId := lastId), list[..k]);
      FoldAppend(EMPTY, [config], StoreChunks(list[..k]));
      if list[k].id in StoreOf(list[..k]) { StoreOfIds(list[..k], list[k].id); }
      ChunkId(list[k]);
    } else if i > 0 {
      assert front[i] == rest[i - 1 - |stores|];
    }
  }

  lemma ChunkId(s: Stored)
    requires StringsFit(s.message)
    ensures StoreChunkOf(s).StoreChunk? && StoreChunkOf(s).id == s.id
  {
  }

  lemma SavedSane(front: seq<Chunk>, cs: seq<Chunk>, list: seq<Stored>, clients: seq<Client>,
                  abs: map<(nat, Path), nat>, ret: map<Path, nat>, shutdown: bool, lastId: nat, now: nat)
    requires StoreFits(list) && ClientsFit(clients) && RetainedFit(ret, list) && SubsFit(abs, clients)
    requires front == Front(shutdown, lastId, list, clients, now)
    requires forall i | 0 <= i < |cs| :: Stems(cs[i], abs, ret, clients, list)
    ensures SaneRun(front + cs)
  {
    hide StoreFits, ClientsFit, RetainedFit, SubsFit, Stems, Front, StoreOf, Saved, Fold, AllKept, AllThere, Sane,
         Ready, Balanced;
    var all := front + cs;
    forall i | 0 <= i < |all| && Fold(EMPTY, all[..i]).Done? ensures Sane(Fold(EMPTY, all[..i]).im, all[i]) {
      if i >= |front| {
        var j := i - |front|;
        assert all[..i] == front + cs[..j] && all[i] == cs[j];
        SavedImage(front, cs[..j], list, clients, abs, ret, shutdown, lastId, now);
        var start := Fold(EMPTY, front).im;
        StoreReady(list, clients, ret, start);
        StemsSane(cs[j], Fold(EMPTY, all[..i]).im, start, list, clients, abs, ret);
      } else {
        assert all[..i] == front[..i] && all[i] == front[i];
        FrontSane(list, clients, shutdown, lastId, now, i);
      }
    }
  }

  lemma HeaderOpens(rest: bytes)
    ensures Opened(Header() + rest) == Some((DB_VERSION as nat, rest))
  {
    hide U32, TakeU32;
    var file := Header() + rest;
    assert file[..15] == MAGIC;
    assert file[19..] == U32(DB_VERSION) + rest;
    TakeU32Back(DB_VERSION, rest);
  }

  /** The stored messages that outlive the restore. */
  ghost function StoreAfter(cs: seq<Chunk>, list: seq<Stored>, clients: seq<Client>): map<nat, Message> {
    map m | m in StoreOf(list) && Stays(cs, list, Saved(clients), m) :: StoreOf(list)[m]
  }

  /** How the restore of what was saved ends. */
  ghost function EndAfter(cs: seq<Chunk>, list: seq<Stored>, clients: seq<Client>): Ending {
    if !AllKept(clients, StoreOf(list)) then Ends(1)
    else if AllThere(cs, list, Saved(clients)) then Ends(0) else Crashes
  }

  /** What the file amounts to. */
  lemma Outcome(file: bytes, front: seq<Chunk>, cs: seq<Chunk>, list: seq<Stored>, clients: seq<Client>,
                abs: map<(nat, Path), nat>, ret: map<Path, nat>, shutdown: bool, lastId: nat, now: nat)
    requires StoreFits(list) && ClientsFit(clients) && RetainedFit(ret, list) && SubsFit(abs, clients)
    requires front == Front(shutdown, lastId, list, clients, now)
    requires AllStorable(front + cs) && file == Header() + EncodeChunks(front + cs)
    requires Covered(cs, abs, ret, clients, list)
    ensures Opened(file) == Some((DB_VERSION as nat, EncodeChunks(front + cs)))
    ensures var contents := ReadAll(EncodeChunks(front + cs), DB_VERSION);
            contents == Contents(front + cs, true) && SaneRun(front + cs)
                && EndOf(contents) == EndAfter(cs, list, clients)
    ensures EndAfter(cs, list, clients) == Ends(0) ==>
              var t := Fold(EMPTY, front + cs);
              && t.Done? && t.im.sessions == Saved(clients) && t.im.lastId == lastId
              && t.im.store == StoreAfter(cs, list, clients) && Balanced(t.im)
              && Renamed(abs, clients, t.im.abs) && t.im.ret == RetOf(cs, list)
  {
    hide StoreFits, ClientsFit, RetainedFit, SubsFit, Stems, Front, StoreOf, Saved, Fold, SubChunkOf, FilterAt, Full,
         Renamed, ReadAll, Opened, AllStorable, EncodeChunks, Header, OneByteEach, AllKept, AllThere, Stays, RetOf,
         Balanced;
    AllStem(cs, abs, ret, clients, list);
    HeaderOpens(EncodeChunks(front + cs));
    FileRoundTrip(front + cs);
    SavedSane(front, cs, list, clients, abs, ret, shutdown, lastId, now);
    SavedImage(front, cs, list, clients, abs, ret, shutdown, lastId, now);
    ClientIds(clients);
    if EndAfter(cs, list, clients) == Ends(0) {
      AllBuiltUp(Fold(EMPTY, front + cs).im, Fold(EMPTY, front).im, cs, abs, ret, clients, list);
      hide Covered;
      assert Fold(EMPTY, front + cs).im.store == StoreAfter(cs, list, clients);
    }
  }

  lemma ClientIds(clients: seq<Client>)
    requires ClientsFit(clients)
    ensures forall i, j | 0 <= i < j < |clients| :: clients[i].session.id != clients[j].session.id
  {
  }

  lemma AllStem(cs: seq<Chunk>, abs: map<(nat, Path), nat>, ret: map<Path, nat>, clients: seq<Client>,
                list: seq<Stored>)
    requires Covered(cs, abs, ret, clients, list)
    ensures forall i | 0 <= i < |cs| :: Stems(cs[i], abs, ret, clients, list)
  {
  }

  /**
    Restore after backup; the chunks of the tree are in the order of the walk. It succeeds just when every message that
    a saved session waits for was saved, and no retained message is named again after it was freed. Then the sessions of
    the persistent clients with their queues and the subscriptions of these clients come back as they were; the retained
    messages are those that the chunks leave, and are the same just when each comes back; and a stored message is there
    unless it was named and nothing holds it. All reference counts are right.
  */
  method Reload(tree: SubTree, clients: seq<Client>, list: seq<Stored>, shutdown: bool, lastId: nat, now: nat)
      returns (end: Ending, loader: Loader)
    requires tree.Valid() && lastId < TWO64 && now < TWO64
    requires StoreFits(list) && ClientsFit(clients) && SubsFit(tree.abs, clients) && RetainedFit(tree.ret, list)
    ensures fresh(loader)
    ensures var cs := TreeChunks(tree.nodes, tree.path, tree.next, clients, list);
            && end == EndAfter(cs, list, clients)
            && (end == Ends(0) ==>
                  && loader.Valid() && loader.lastId == lastId && loader.sessions == Saved(clients)
                  && loader.store == StoreAfter(cs, list, clients)
                  && Renamed(tree.abs, clients, loader.tree.abs) && loader.tree.ret == RetOf(cs, list)
                  && (loader.tree.ret == tree.ret <==> forall p | p in tree.ret :: ComesBack(cs, list, p, tree.ret[p])))
  {
    hide Sound, StoreFits, ClientsFit, SubsFit, RetainedFit, StoreOf, Saved, Renamed, Fold, ReadAll, Opened, SaneRun,
         EncodeChunks, Header, Covered, Front, AllStorable, AllKept, AllThere, RetOf, TreeChunks, StoreAfter, ComesBack,
         Balanced, EndOf;
    var saver := new Saver(tree, clients, list);
    saver.Fits();
    saver.Save(shutdown, lastId, now);
    loader := new Loader();
    ghost var cs := TreeChunks(tree.nodes, tree.path, tree.next, clients, list);
    ghost var front := Front(shutdown, lastId, list, clients, now);
    TreeCovered(tree.nodes, tree.next, tree.path, tree.at, tree.abs, tree.ret, tree.subsOf, clients, list);
    assert saver.chunks == front + cs by { FrontIs(shutdown, lastId, list, clients, now); }
    Outcome(saver.file, front, cs, list, clients, tree.abs, tree.ret, shutdown, lastId, now);
    end := RestoreFile(saver.file, loader);
    SameRetained(cs, tree.abs, tree.ret, clients, list);
  }

  lemma FrontIs(shutdown: bool, lastId: nat, list: seq<Stored>, clients: seq<Client>, now: nat)
    requires StoreFits(list)
    ensures Front(shutdown, lastId, list, clients, now) ==
            [Config(shutdown, lastId)] + StoreChunks(list) + ClientChunks(clients, now)
  {
  }
}
