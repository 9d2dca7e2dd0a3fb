/** Saving the database to a file, and restoring it. */
module Persist {
  import opened Topics
  import opened Tree
  import opened Subs
  import opened Wire
  import opened Archive
  import opened Snapshot
  import opened Walk

  lemma {:induction false} EncodeMore(cs: seq<Chunk>, c: Chunk)
    requires AllStorable(cs) && Storable(c) && |Body(c)| < TWO32
    ensures AllStorable(cs + [c]) && EncodeChunks(cs + [c]) == EncodeChunks(cs) + EncodeChunk(c)
  {
    hide Body, Storable, EncodeChunk;
    if cs == [] {
      assert [] + [c] == [c];
      assert [c][1..] == [];
      assert EncodeChunks([c]) == EncodeChunk(c) + [];
    } else {
      EncodeMore(cs[1..], c);
      assert (cs + [c])[1..] == cs[1..] + [c];
    }
  }

  // ----- saving -----

  /** What is saved: the tree, the clients and the stored messages, and the file as far as it is written. */
  class Saver {
    const tree: SubTree
    const clients: seq<Client>
    const list: seq<Stored>
    var file: bytes
    ghost var chunks: seq<Chunk>

    constructor (tree: SubTree, clients: seq<Client>, list: seq<Stored>)
      ensures this.tree == tree && this.clients == clients && this.list == list && file == [] && chunks == []
    {
      this.tree, this.clients, this.list, file, chunks := tree, clients, list, [], [];
    }

    /** The file is the header and the chunks written so far. */
    ghost predicate Valid()
      reads this
    {
      AllStorable(chunks) && file == Header() + EncodeChunks(chunks)
    }

    /** The head of a chunk. */
    method WriteHead(kind: nat, length: nat)
      requires kind < 65536 && length < TWO32
      modifies this`file
      ensures file == old(file) + (U16(kind) + U32(length))
    {
      file := file + U16(kind);
      file := file + U32(length);
    }

    method WriteText(s: bytes)
      requires |s| <= 65535
      modifies this`file
      ensures file == old(file) + Str(s)
    {
      file := file + U16(|s|);
      if |s| > 0 {
        file := file + s;
      }
    }

    /** A chunk has been written field by field. */
    ghost method Note(c: Chunk, before: bytes)
      requires AllStorable(chunks) && before == Header() + EncodeChunks(chunks) && Storable(c) && |Body(c)| < TWO32
      requires file == before + EncodeChunk(c)
      modifies this`chunks
      ensures Valid() && chunks == old(chunks) + [c]
    {
      hide Body, Storable, EncodeChunk, Header, EncodeChunks;
      EncodeMore(chunks, c);
      chunks := chunks + [c];
    }

    method WriteHeader(shutdown: bool, lastId: nat)
      requires file == [] && chunks == [] && lastId < TWO64
      modifies this
      ensures Valid() && chunks == [Config(shutdown, lastId)]
    {
      file := file + MAGIC;
      file := file + U32(0);
      file := file + U32(DB_VERSION);
      ghost var before := file;
      WriteHead(DB_CHUNK_CFG, 8 + 1 + 1);
      file := file + [if shutdown then 1 else 0];
      file := file + [8];
      file := file + U64(lastId);
      Note(Config(shutdown, lastId), before);
    }

    method WriteMsg(id: bytes, q: Queued)
      requires Valid() && Storable(MsgChunkOf(id, q))
      modifies this
      ensures Valid() && chunks == old(chunks) + [MsgChunkOf(id, q)]
    {
      hide Header, EncodeChunks, U16, U32, U64, Str;
      ghost var before := file;
      StrLength(id);
      WriteHead(DB_CHUNK_CLIENT_MSG, 8 + 2 + 1 + 1 + 1 + 1 + 1 + 2 + |id|);
      WriteText(id);
      file := file + U64(q.store);
      file := file + U16(q.mid);
      file := file + [q.qos];
      file := file + [q.retain];
      file := file + [q.direction];
      file := file + [q.state];
      file := file + [q.dup];
      assert file == before + EncodeChunk(MsgChunkOf(id, q));
      Note(MsgChunkOf(id, q), before);
    }

    method WriteClient(id: bytes, lastMid: nat, disconnected: nat)
      requires Valid() && Storable(ClientChunk(id, lastMid, disconnected))
      modifies this
      ensures Valid() && chunks == old(chunks) + [ClientChunk(id, lastMid, disconnected)]
    {
      hide Header, EncodeChunks, U16, U32, U64, Str;
      ghost var before := file;
      StrLength(id);
      WriteHead(DB_CHUNK_CLIENT, 2 + |id| + 2 + 8);
      WriteText(id);
      file := file + U16(lastMid);
      file := file + U64(disconnected);
      assert file == before + EncodeChunk(ClientChunk(id, lastMid, disconnected));
      Note(ClientChunk(id, lastMid, disconnected), before);
    }

    method WriteSub(id: bytes, topic: bytes, qos: byte)
      requires Valid() && Storable(SubChunk(id, topic, qos))
      modifies this
      ensures Valid() && chunks == old(chunks) + [SubChunk(id, topic, qos)]
    {
      hide Header, EncodeChunks, U16, U32, Str;
      ghost var before := file;
      StrLength(id);
      StrLength(topic);
      WriteHead(DB_CHUNK_SUB, 2 + |id| + 2 + |topic| + 1);
      WriteText(id);
      WriteText(topic);
      file := file + [qos];
      assert file == before + EncodeChunk(SubChunk(id, topic, qos));
      Note(SubChunk(id, topic, qos), before);
    }

    method WriteRetain(id: nat)
      requires Valid() && id < TWO64
      modifies this
      ensures Valid() && chunks == old(chunks) + [RetainChunk(id)]
    {
      hide Header, EncodeChunks, U16, U32, U64;
      ghost var before := file;
      WriteHead(DB_CHUNK_RETAIN, 8);
      file := file + U64(id);
      assert file == before + EncodeChunk(RetainChunk(id));
      Note(RetainChunk(id), before);
    }

    method WriteContent(m: Message)
      requires |m.payload| < TWO32
      modifies this`file
      ensures file == old(file)
              + ([m.qos] + ([if m.retain && !OfSys(m) then 1 else 0] + (U32(|m.payload|) + m.payload)))
    {
      hide U32;
      file := file + [m.qos];
      file := file + [if m.retain && !OfSys(m) then 1 else 0];
      file := file + U32(|m.payload|);
      file := file + m.payload;
    }

    method WriteStored(s: Stored)
      requires Valid() && StringsFit(s.message) && Storable(StoreChunkOf(s))
      modifies this
      ensures Valid() && chunks == old(chunks) + [StoreChunkOf(s)]
    {
      hide EncodeChunks, Header, EncodeChunk, Body, StoreChunkOf, Storable, U16, U32, U64, Str;
      ghost var before := file;
      var m := s.message;
      StoredBytes(s);
      var topic := if m.topic.Some? then BytesOf(m.topic.value) else [];
      WriteHead(DB_CHUNK_MSG_STORE, 8 + 2 + |m.sourceId| + 2 + 2 + 2 + |topic| + 4 + |m.payload| + 1 + 1);
      file := file + U64(s.id);
      WriteText(m.sourceId);
      file := file + U16(m.sourceMid);
      file := file + U16(s.mid);
      WriteText(topic);
      WriteContent(m);
      assert file == before + EncodeChunk(StoreChunkOf(s));
      Note(StoreChunkOf(s), before);
    }

    // ----- what is written -----

    /** `mqtt3_db_message_store_write`. */
    method WriteStore()
      requires Valid() && StoreFits(list)
      modifies this
      ensures Valid() && chunks == old(chunks) + StoreChunks(list)
    {
      hide Valid, StoreChunkOf, Written;
      for i := 0 to |list|
        invariant Valid() && chunks == old(chunks) + StoreChunks(list[..i])
      {
        assert list[..i + 1][..i] == list[..i];
        var s := list[i];
        if Written(s) {
          StoredStorable(s);
          WriteStored(s);
        }
      }
      assert list[..|list|] == list;
    }

    /** `mqtt3_db_client_write`. */
    method WriteClients(now: nat)
      requires Valid() && ClientsFit(clients) && now < TWO64
      modifies this
      ensures Valid() && chunks == old(chunks) + ClientChunks(clients, now)
    {
      hide Valid, MsgChunks;
      for i := 0 to |clients|
        invariant Valid() && chunks == old(chunks) + ClientChunks(clients[..i], now)
      {
        assert clients[..i + 1][..i] == clients[..i];
        var c := clients[i];
        if c.persistent {
          var disconnected := if c.disconnected > 0 then c.disconnected else now;
          WriteClient(c.session.id, c.session.lastMid, disconnected);
          WriteMsgs(c.session);
        }
      }
      assert clients[..|clients|] == clients;
    }

    /** `mqtt3_db_client_messages_write`. */
    method WriteMsgs(s: Session)
      requires Valid() && SessionFits(s)
      modifies this
      ensures Valid() && chunks == old(chunks) + MsgChunks(s.id, s.msgs)
    {
      hide Valid;
      for i := 0 to |s.msgs|
        invariant Valid() && chunks == old(chunks) + MsgChunks(s.id, s.msgs[..i])
      {
        assert s.msgs[..i + 1][..i] == s.msgs[..i];
        assert Storable(MsgChunkOf(s.id, s.msgs[i]));
        WriteMsg(s.id, s.msgs[i]);
      }
      assert s.msgs[..|s.msgs|] == s.msgs;
    }

    /** What the walk needs of the tree. */
    ghost predicate TreeFits()
      reads tree
    {
      && tree.Valid() && SubsFit(tree.abs, clients) && RetainedFit(tree.ret, list)
      && forall i | 0 <= i < |clients| && clients[i].persistent :: |clients[i].session.id| <= 65535
    }

    lemma Fits()
      requires tree.Valid() && SubsFit(tree.abs, clients) && RetainedFit(tree.ret, list) && ClientsFit(clients)
      ensures TreeFits()
    {
      hide Sound, SubsFit, RetainedFit;
    }

    /** The chunks of some nodes, in their order. */
    ghost function Of(order: seq<nat>): seq<Chunk>
      reads tree
    {
      ChunksOf(order, tree.nodes, tree.path, clients, list)
    }

    /**
      `_db_subs_retain_write`: what a node holds, then what its children hold, with the topic string built on the way
      down.
    */
    method WriteNode(r: nat, topic: string, level: nat)
      requires Valid() && tree.Valid() && TreeFits() && r in tree.nodes && r in tree.path && tree.path[r].Sub?
               && tree.path[r].up.Sub?
      requires level == Level(tree.path[r]) && topic == if level == 0 then "" else Walked(tree.path[r].up)
      modifies this
      ensures Valid() && chunks == old(chunks) + Of(Preorder(tree.nodes, r, tree.next))
      decreases tree.next - r
    {
      hide Sound, Valid, TreeFits, ChunksOf, ChunksAt, Walked, Labels, Level;
      NodeFacts(r);
      NodeTopic(r, topic, level);
      var node := tree.nodes[r];
      var thisTopic := if level > 1 || topic != "" then topic + "/" + node.topic else node.topic;
      WriteHeld(r, thisTopic);
      ChunksOne(r, tree.nodes, tree.path, clients, list);
      assert [r] + Beyond(tree.nodes, [], r, tree.next) == [r] && node.children[..0] == [];
      for k := 0 to |node.children|
        invariant Valid() && chunks == old(chunks) + Of([r] + Beyond(tree.nodes, node.children[..k], r, tree.next))
      {
        var c := node.children[k];
        ChildFacts(r, c);
        ChildLevel(tree.path[r], tree.path[c]);
        WriteNode(c, thisTopic, level + 1);
        OneChild(r, k);
      }
      assert node.children[..|node.children|] == node.children;
    }

    lemma NodeTopic(r: nat, topic: string, level: nat)
      requires tree.Valid() && r in tree.nodes && r in tree.path && tree.path[r].Sub? && tree.path[r].up.Sub?
      requires level == Level(tree.path[r]) && topic == if level == 0 then "" else Walked(tree.path[r].up)
      ensures Walked(tree.path[r]) ==
              if level > 1 || topic != "" then topic + "/" + tree.nodes[r].topic else tree.nodes[r].topic
    {
      NodeFacts(r);
    }

    /** The nodes below one child come after those below the others. */
    lemma OneChild(r: nat, k: nat)
      requires r in tree.nodes && k < |tree.nodes[r].children| && r < tree.nodes[r].children[k] < tree.next
      ensures var cs := tree.nodes[r].children;
              Of([r] + Beyond(tree.nodes, cs[..k + 1], r, tree.next)) ==
              Of([r] + Beyond(tree.nodes, cs[..k], r, tree.next)) + Of(Preorder(tree.nodes, cs[k], tree.next))
    {
      hide ChunksOf, Preorder;
      var cs := tree.nodes[r].children;
      assert cs[..k + 1][..k] == cs[..k];
      var before, more := Beyond(tree.nodes, cs[..k], r, tree.next), Preorder(tree.nodes, cs[k], tree.next);
      assert [r] + (before + more) == ([r] + before) + more;
      ChunksAppend([r] + before, more, tree.nodes, tree.path, clients, list);
    }

    /** A node below a top, and the string that the walk builds for it. */
    lemma NodeFacts(r: nat)
      requires tree.Valid() && r in tree.nodes && r in tree.path && tree.path[r].Sub? && tree.path[r].up.Sub?
      ensures tree.nodes[r].topic == tree.path[r].name && r < tree.next && 0 <= Level(tree.path[r])
      ensures Level(tree.path[r]) == 0 <==> tree.path[r].up.up.Root?
    {
      assert Hangs(tree.nodes, tree.path, tree.at, r) by { assert r != ROOT; }
      NotRoot(tree.path[r].up.up);
      assert Labels(tree.path[r]) == Labels(tree.path[r].up.up) + [tree.path[r].up.name] + [tree.path[r].name];
    }

    lemma ChildFacts(r: nat, c: nat)
      requires tree.Valid() && r in tree.nodes && r in tree.path && c in tree.nodes[r].children
      ensures c in tree.nodes && c in tree.path && tree.path[c] == Sub(tree.path[r], tree.nodes[c].topic)
              && r < c < tree.next
    {
      assert Down(tree.nodes, tree.path, r);
    }

    /** A leaf is a subscription that can be written. */
    lemma LeafFacts(r: nat, i: nat)
      requires TreeFits() && r in tree.nodes && i < |tree.nodes[r].subs|
      ensures var leaf := tree.nodes[r].subs[i];
              && r in tree.path && leaf.client < |clients| && leaf.qos < 256 && tree.path[r].Sub?
              && OneByteEach(Walked(tree.path[r])) && |Walked(tree.path[r])| <= 65535
    {
      hide Walked, FilterAt, Full, ValidLevels;
      assert LeavesOk(tree.nodes, tree.path, tree.abs, r);
      assert (tree.nodes[r].subs[i].client, tree.path[r]) in tree.abs;
      WalkedIsFilter(tree.path[r]);
    }

    lemma RetainedFacts(r: nat)
      requires TreeFits() && r in tree.nodes && tree.nodes[r].retained.Some?
      ensures var id := tree.nodes[r].retained.value;
              id < TWO64 && MessageAt(list, id).Some?
    {
      tree.RetainedAt(r);
    }

    /** The subscriptions and the retained message of one node. */
    method WriteHeld(r: nat, thisTopic: string)
      requires Valid() && TreeFits() && r in tree.nodes && r in tree.path && tree.path[r].Sub?
               && thisTopic == Walked(tree.path[r])
      modifies this
      ensures Valid() && chunks == old(chunks) + ChunksAt(tree.nodes, tree.path, r, clients, list)
    {
      hide Sound, Valid, SubsFit, RetainedFit, Walked, FilterAt, Full;
      var node := tree.nodes[r];
      for i := 0 to |node.subs|
        invariant Valid() && chunks == old(chunks) + LeafChunks(node.subs[..i], thisTopic, clients)
      {
        LeafFacts(r, i);
        assert node.subs[..i + 1][..i] == node.subs[..i];
        var leaf := node.subs[i];
        if clients[leaf.client].persistent {
          WriteSub(clients[leaf.client].session.id, BytesOf(thisTopic), leaf.qos);
        }
      }
      assert node.subs[..|node.subs|] == node.subs;
      if node.retained.Some? {
        RetainedFacts(r);
        if !OfSys(MessageAt(list, node.retained.value).value) {
          WriteRetain(node.retained.value);
        }
      }
    }

    /** `mqtt3_db_subs_retain_write`: each top has one child, from which the walk goes down. */
    method WriteTree()
      requires Valid() && TreeFits()
      modifies this
      ensures Valid() && chunks == old(chunks) + TreeChunks(tree.nodes, tree.path, tree.next, clients, list)
    {
      hide Sound, Valid, SubsFit, RetainedFit, ChunksOf, ChunksAt, Preorder;
      RootFacts();
      ChunksOne(ROOT, tree.nodes, tree.path, clients, list);
      var tops := tree.nodes[ROOT].children;
      for i := 0 to |tops|
        invariant Valid() && chunks == old(chunks) + Of(FromTops(tree.nodes, tops[..i], tree.next))
      {
        TopFacts(tops[i]);
        assert tops[..i + 1][..i] == tops[..i];
        ChunksAppend(FromTops(tree.nodes, tops[..i], tree.next), FromTop(tree.nodes, tops[i], tree.next), tree.nodes,
                     tree.path, clients, list);
        if tree.nodes[tops[i]].children != [] {
          WriteNode(tree.nodes[tops[i]].children[0], "", 0);
        }
      }
      assert tops[..|tops|] == tops;
    }

    lemma RootFacts()
      requires tree.Valid()
      ensures ROOT in tree.nodes && ROOT in tree.path && tree.path[ROOT] == Root
    {
    }

    lemma TopFacts(top: nat)
      requires tree.Valid() && ROOT in tree.nodes && top in tree.nodes[ROOT].children
      ensures top in tree.nodes
      ensures tree.nodes[top].children != [] ==>
                var c := tree.nodes[top].children[0];
                c in tree.nodes && c in tree.path && tree.path[c].Sub? && tree.path[c].up.Sub?
                    && Level(tree.path[c]) == 0
    {
      ChildFacts(ROOT, top);
      if tree.nodes[top].children != [] {
        ChildFacts(top, tree.nodes[top].children[0]);
        assert tree.path[top].up == Root;
        NodeFacts(tree.nodes[top].children[0]);
      }
    }

    /** `mqtt3_db_backup`: the header, the stored messages, the clients with their queues, and the tree. */
    method Save(shutdown: bool, lastId: nat, now: nat)
      requires file == [] && chunks == [] && lastId < TWO64 && now < TWO64
      requires TreeFits() && StoreFits(list) && ClientsFit(clients)
      modifies this
      ensures Valid()
      ensures chunks == [Config(shutdown, lastId)] + StoreChunks(list) + ClientChunks(clients, now)
                        + TreeChunks(tree.nodes, tree.path, tree.next, clients, list)
    {
      hide Valid, TreeFits, StoreChunks, ClientChunks, TreeChunks;
      WriteHeader(shutdown, lastId);
      WriteStore();
      WriteClients(now);
      WriteTree();
    }
  }

  /** Chunks of stored messages and of clients only. */
  predicate NoneOfTree(cs: seq<Chunk>) {
    forall i | 0 <= i < |cs| :: !cs[i].SubChunk? && !cs[i].RetainChunk?
  }

  lemma {:induction false} StoreKinds(list: seq<Stored>)
    requires StoreFits(list)
    ensures NoneOfTree(StoreChunks(list))
  {
    if list != [] { StoreKinds(list[..|list| - 1]); }
  }

  lemma {:induction false} MsgKinds(id: bytes, msgs: seq<Queued>)
    ensures NoneOfTree(MsgChunks(id, msgs))
  {
    if msgs != [] { MsgKinds(id, msgs[..|msgs| - 1]); }
  }

  lemma {:induction false} ClientKinds(clients: seq<Client>, now: nat)
    ensures NoneOfTree(ClientChunks(clients, now))
  {
    if clients != [] {
      ClientKinds(clients[..|clients| - 1], now);
      MsgKinds(clients[|clients| - 1].session.id, clients[|clients| - 1].session.msgs);
    }
  }

  /** The fields of a stored message, one after the other. */
  lemma StoredBytes(s: Stored)
    requires StringsFit(s.message) && Storable(StoreChunkOf(s))
    ensures var m := s.message;
            var topic := if m.topic.Some? then BytesOf(m.topic.value) else [];
            var length := 8 + 2 + |m.sourceId| + 2 + 2 + 2 + |topic| + 4 + |m.payload| + 1 + 1;
            && |topic| <= 65535 && s.mid < 65536 && m.sourceMid < 65536 && length < TWO32
            && |Body(StoreChunkOf(s))| == length
            && EncodeChunk(StoreChunkOf(s)) ==
               U16(DB_CHUNK_MSG_STORE)
                   + (U32(length) + (U64(s.id) + (Str(m.sourceId) + (U16(m.sourceMid) + (U16(s.mid) + (Str(topic)
               + ([m.qos] + ([if m.retain && !OfSys(m) then 1 else 0] + (U32(|m.payload|) + m.payload)))))))))
  {
    hide U16, U32, U64, Str, OfSys;
    StrLength(s.message.sourceId);
    StrLength(if s.message.topic.Some? then BytesOf(s.message.topic.value) else []);
  }

  lemma ChildLevel(p: Path, c: Path)
    requires c.Sub? && c.up == p && Level(p) >= 0
    ensures Level(c) == Level(p) + 1
  {
  }

  lemma NotRoot(p: Path)
    ensures |Labels(p)| == 0 <==> p.Root?
  {
  }

  lemma StoredStorable(s: Stored)
    requires 0 < s.id < TWO64 && s.mid < 65536 && s.message.sourceMid < 65536 && StringsFit(s.message)
    ensures Storable(StoreChunkOf(s)) && |Body(StoreChunkOf(s))| < TWO32
  {
    hide U64, U32, U16, Str;
    StrLength(s.message.sourceId);
    StrLength(if s.message.topic.Some? then BytesOf(s.message.topic.value) else []);
  }
}
