/** The walk over the subscription tree that saves it, and what its chunks build up again. */
module Walk {
  import opened Sequences
  import opened Wrappers
  import opened Topics
  import opened Tree
  import opened Wire
  import opened Archive
  import opened Snapshot

  // ----- the topic strings of the walk -----

  function Level(p: Path): int {
    |Labels(p)| - 2
  }

  /** The string that the walk builds for a node below a top. */
  function Walked(p: Path): string
    requires p.Sub?
  {
    if p.up.Root? || p.up.up.Root? then p.name
    else if Level(p) > 1 || Walked(p.up) != "" then Walked(p.up) + "/" + p.name
    else p.name
  }

  lemma {:induction false} JoinMore(levels: seq<string>, l: string)
    requires |levels| >= 1
    ensures Join(levels + [l]) == Join(levels) + "/" + l
  {
    if |levels| == 1 {
      assert (levels + [l])[1..] == [l];
    } else {
      JoinMore(levels[1..], l);
      assert (levels + [l])[1..] == levels[1..] + [l];
    }
  }

  lemma {:induction false} WalkedJoins(p: Path)
    requires |Labels(p)| >= 2 && Labels(p)[0] == Labels(p)[1]
    ensures var ls := Labels(p);
            Walked(p) == if ls[0] != "" then Join(ls[1..]) else if |ls| == 2 then "" else Join(ls[2..])
  {
    var ls := Labels(p);
    var above := Labels(p.up);
    assert ls == above + [p.name];
    if |ls| == 2 {
      assert Labels(p.up) == Labels(p.up.up) + [p.up.name];
      assert p.up.up.Root? && ls[1] == p.name;
      assert ls[1..] == [p.name];
    } else {
      WalkedJoins(p.up);
      assert ls[1..] == above[1..] + [p.name] && ls[2..] == above[2..] + [p.name];
      if ls[0] != "" {
        JoinMore(above[1..], p.name);
        JoinNotEmpty(above[1..]);
      } else if |above| > 2 {
        JoinMore(above[2..], p.name);
      } else {
        assert ls[2..] == [p.name];
      }
    }
  }

  lemma JoinNotEmpty(levels: seq<string>)
    requires |levels| >= 1 && levels[0] != ""
    ensures Join(levels) != ""
  {
  }

  /** The walk finds the filter of every node that can hold anything, empty levels and all. */
  lemma WalkedIsFilter(p: Path)
    requires Full(p)
    ensures p.Sub? && Walked(p) == FilterAt(p)
  {
    WalkedJoins(p);
  }

  // ----- what hangs below a top -----

  /** The ancestor on the second level. */
  function Second(p: Path): Path
    requires p.Sub? && p.up.Sub?
  {
    if p.up.up.Root? then p else Second(p.up)
  }

  /** Every node below a top is below its one child. */
  lemma {:induction false} BelowSecond(nodes: Nodes, path: map<nat, Path>, at: map<Path, nat>, p: Path)
    requires Shape(nodes, path, at) && AllDoubled(nodes, path) && p in at && p.Sub? && p.up.Sub?
    ensures Second(p) in at && at[Second(p)] in nodes && Suffix(p, Second(p)).Some? && Second(p).Sub?
            && Second(p).up.Sub? && Second(p).up.up.Root?
    ensures Second(p).up in at && nodes[at[Second(p).up]].children == [at[Second(p)]]
            && at[Second(p).up] in nodes[ROOT].children
  {
    ChildNamed(nodes, path, at, p);
    if p.up.up.Root? {
      ChildNamed(nodes, path, at, p.up);
      OnlyChild(nodes, path, at, p);
    } else {
      BelowSecond(nodes, path, at, p.up);
    }
  }

  lemma OnlyChild(nodes: Nodes, path: map<nat, Path>, at: map<Path, nat>, p: Path)
    requires Shape(nodes, path, at) && AllDoubled(nodes, path) && p in at && p.Sub? && p.up.Sub? && p.up.up.Root?
    requires p.up in at && at[p.up] in nodes && at[p] in nodes[at[p.up]].children
    ensures nodes[at[p.up]].children == [at[p]]
  {
    var top := at[p.up];
    var cs := nodes[top].children;
    assert Down(nodes, path, top) && Doubled(p);
    assert path[top] == p.up;
    assert |cs| > 1 ==> cs[0] != cs[1];
    forall i | 0 <= i < |cs| ensures cs[i] == at[p] {
      assert cs[i] in cs && Doubled(path[cs[i]]);
      assert path[cs[i]] == Sub(p.up, nodes[cs[i]].topic) == p;
    }
  }

  ghost predicate Beneath(path: map<nat, Path>, x: nat, r: nat) {
    x in path && r in path && Suffix(path[x], path[r]).Some?
  }

  /** What is below a node is the node itself or below one of its children. */
  lemma {:induction false} BeneathChild(nodes: Nodes, path: map<nat, Path>, at: map<Path, nat>, x: nat, r: nat)
      returns (c: nat)
    requires Shape(nodes, path, at) && x in nodes && r in nodes && Beneath(path, x, r) && x != r
    ensures c in nodes[r].children && c in nodes && Beneath(path, x, c)
    decreases path[x]
  {
    var p := path[x];
    assert at[p] == x && at[path[r]] == r;
    assert p.Sub?;
    assert Hangs(nodes, path, at, x);
    if p.up == path[r] {
      c := x;
    } else {
      c := BeneathChild(nodes, path, at, at[p.up], r);
    }
  }

  // ----- the order of the walk -----

  /** A node and what is below it, in the order in which the walk comes to them. */
  function Preorder(nodes: Nodes, r: nat, next: nat): seq<nat>
    decreases next - r, 1, 0
  {
    if r in nodes then [r] + Beyond(nodes, nodes[r].children, r, next) else []
  }

  function Beyond(nodes: Nodes, cs: seq<nat>, r: nat, next: nat): seq<nat>
    decreases next - r, 0, |cs|
  {
    if cs == [] then []
    else
      var c := cs[|cs| - 1];
      Beyond(nodes, cs[..|cs| - 1], r, next) + if r < c < next then Preorder(nodes, c, next) else []
  }

  /** Each top has one child at most, from which the walk goes down. */
  function FromTops(nodes: Nodes, tops: seq<nat>, next: nat): seq<nat> {
    if tops == [] then [] else FromTops(nodes, tops[..|tops| - 1], next) + FromTop(nodes, tops[|tops| - 1], next)
  }

  function WalkOrder(nodes: Nodes, next: nat): seq<nat> {
    if ROOT in nodes then FromTops(nodes, nodes[ROOT].children, next) else []
  }

  /** Nothing is below two children of the same node. */
  lemma Apart(nodes: Nodes, path: map<nat, Path>, at: map<Path, nat>, x: nat, r: nat, b: nat, c: nat)
    requires Shape(nodes, path, at) && r in nodes && b in nodes[r].children && c in nodes[r].children
    requires Beneath(path, x, b) && Beneath(path, x, c)
    ensures b == c
  {
    assert Down(nodes, path, r);
    SuffixStep(path[x], path[r], nodes[b].topic);
    SuffixStep(path[x], path[r], nodes[c].topic);
    var down := [nodes[b].topic] + Suffix(path[x], path[b]).value;
    var other := [nodes[c].topic] + Suffix(path[x], path[c]).value;
    assert down[0] == other[0];
    if b != c { SiblingsDiffer(nodes, path, at, r, b, c); }
  }

  /** What is below a child is below its parent, and is not the parent. */
  lemma AboveChild(nodes: Nodes, path: map<nat, Path>, at: map<Path, nat>, x: nat, r: nat, c: nat)
    requires Shape(nodes, path, at) && r in nodes && c in nodes[r].children && Beneath(path, x, c)
    ensures Beneath(path, x, r) && x != r && r < c && c in nodes
  {
    assert Down(nodes, path, r);
    SuffixStep(path[x], path[r], nodes[c].topic);
    SuffixDepth(path[x], path[c]);
    assert Labels(path[c]) == Labels(path[r]) + [nodes[c].topic];
  }

  lemma {:induction false} PreorderHas(nodes: Nodes, path: map<nat, Path>, at: map<Path, nat>, r: nat, next: nat)
    requires Shape(nodes, path, at) && Fresh(nodes, next) && r in nodes
    ensures var order := Preorder(nodes, r, next);
            NoDups(order) && forall x :: x in order <==> x in nodes && Beneath(path, x, r)
    decreases next - r, 1, 0
  {
    hide Beneath;
    var cs := nodes[r].children;
    BeyondHas(nodes, path, at, |cs|, r, next);
    assert cs[..|cs|] == cs;
    Itself(nodes, path, at, r);
    forall x | x in nodes && Beneath(path, x, r) && x != r ensures x in Beyond(nodes, cs, r, next) {
      var c := BeneathChild(nodes, path, at, x, r);
      var j :| 0 <= j < |cs| && cs[j] == c;
    }
    forall j, x | 0 <= j < |cs| && Beneath(path, x, cs[j]) ensures Beneath(path, x, r) && x != r {
      AboveChild(nodes, path, at, x, r, cs[j]);
    }
  }

  lemma Itself(nodes: Nodes, path: map<nat, Path>, at: map<Path, nat>, r: nat)
    requires Shape(nodes, path, at) && r in nodes
    ensures Beneath(path, r, r)
  {
  }

  lemma {:induction false} BeyondHas(nodes: Nodes, path: map<nat, Path>, at: map<Path, nat>, k: nat, r: nat, next: nat)
    requires Shape(nodes, path, at) && Fresh(nodes, next) && r in nodes && k <= |nodes[r].children|
    ensures var cs := nodes[r].children;
            var order := Beyond(nodes, cs[..k], r, next);
            NoDups(order) && forall x ::
              x in order <==> x in nodes && exists j :: 0 <= j < k && Beneath(path, x, cs[j])
    decreases next - r, 0, k
  {
    hide Beneath, Shape, Fresh, Preorder;
    if k > 0 {
      var cs := nodes[r].children;
      var c := cs[k - 1];
      ChildOf(nodes, path, at, r, k - 1, next);
      BeyondHas(nodes, path, at, k - 1, r, next);
      PreorderHas(nodes, path, at, c, next);
      assert cs[..k][..k - 1] == cs[..k - 1];
      assert forall j | 0 <= j < k - 1 :: cs[j] != c;
      forall j, x | 0 <= j < k - 1 && Beneath(path, x, cs[j]) && Beneath(path, x, c) ensures false {
        Apart(nodes, path, at, x, r, cs[j], c);
      }
      NoDupsAppend(Beyond(nodes, cs[..k - 1], r, next), Preorder(nodes, c, next));
    }
  }

  lemma ChildOf(nodes: Nodes, path: map<nat, Path>, at: map<Path, nat>, r: nat, k: nat, next: nat)
    requires Shape(nodes, path, at) && Fresh(nodes, next) && r in nodes && k < |nodes[r].children|
    ensures var c := nodes[r].children[k];
            c in nodes && c in path && r < c < next && path[c] == Sub(path[r], nodes[c].topic)
    ensures NoDups(nodes[r].children)
  {
    assert Down(nodes, path, r);
  }

  lemma NoDupsAppend(a: seq<nat>, b: seq<nat>)
    requires NoDups(a) && NoDups(b) && forall x | x in a :: x !in b
    ensures NoDups(a + b)
  {
    forall j, k | 0 <= j < k < |a + b| ensures (a + b)[j] != (a + b)[k] {
      if j < |a| <= k { assert a[j] in a && b[k - |a|] in b; }
    }
  }

  /** A node below a top. */
  predicate Deep(path: map<nat, Path>, x: nat) {
    x in path && path[x].Sub? && path[x].up.Sub?
  }

  /** The walk comes to every node below a top once, and to no other one. */
  lemma WalkOrderHas(nodes: Nodes, path: map<nat, Path>, at: map<Path, nat>, next: nat)
    requires Shape(nodes, path, at) && Fresh(nodes, next) && AllDoubled(nodes, path)
    ensures var order := WalkOrder(nodes, next);
            NoDups(order) && forall x :: x in order <==> x in nodes && Deep(path, x)
  {
    hide Beneath;
    var tops := nodes[ROOT].children;
    FromTopsHas(nodes, path, at, |tops|, next);
    assert tops[..|tops|] == tops;
    forall x | x in nodes && Deep(path, x)
      ensures exists j :: 0 <= j < |tops| && BelowTop(nodes, path, x, tops[j])
    {
      var p := path[x];
      BelowSecond(nodes, path, at, p);
      BeneathSecond(nodes, path, at, x);
      var j :| 0 <= j < |tops| && tops[j] == at[Second(p).up];
    }
    forall j, x | 0 <= j < |tops| && x in nodes && BelowTop(nodes, path, x, tops[j]) ensures Deep(path, x) {
      TopChild(nodes, path, at, j, next);
      SecondIsDeep(nodes, path, x, nodes[tops[j]].children[0]);
    }
  }

  ghost predicate BelowTop(nodes: Nodes, path: map<nat, Path>, x: nat, top: nat) {
    top in nodes && nodes[top].children != [] && Beneath(path, x, nodes[top].children[0])
  }

  lemma BeneathSecond(nodes: Nodes, path: map<nat, Path>, at: map<Path, nat>, x: nat)
    requires Shape(nodes, path, at) && AllDoubled(nodes, path) && x in nodes && Deep(path, x)
    ensures var second := Second(path[x]);
            second.Sub? && second in at && second.up in at && BelowTop(nodes, path, x, at[second.up])
  {
    BelowSecond(nodes, path, at, path[x]);
  }

  lemma TopChild(nodes: Nodes, path: map<nat, Path>, at: map<Path, nat>, j: nat, next: nat)
    requires Shape(nodes, path, at) && Fresh(nodes, next) && j < |nodes[ROOT].children|
    ensures var top := nodes[ROOT].children[j];
            && top in nodes && top in path && path[top].Sub? && path[top].up == Root
            && (nodes[top].children != [] ==>
                  var c := nodes[top].children[0];
                  c in nodes && c in path && Deep(path, c) && path[c].up.up == Root && c in nodes[top].children)
  {
    ChildOf(nodes, path, at, ROOT, j, next);
    if nodes[nodes[ROOT].children[j]].children != [] {
      ChildOf(nodes, path, at, nodes[ROOT].children[j], 0, next);
    }
  }

  lemma {:induction false} SecondIsDeep(nodes: Nodes, path: map<nat, Path>, x: nat, c: nat)
    requires Beneath(path, x, c) && Deep(path, c)
    ensures Deep(path, x)
  {
    DeepSuffix(path[x], path[c]);
  }

  lemma DeepSuffix(p: Path, top: Path)
    requires Suffix(p, top).Some? && top.Sub? && top.up.Sub?
    ensures p.Sub? && p.up.Sub?
  {
  }

  lemma TopsApart(nodes: Nodes, path: map<nat, Path>, at: map<Path, nat>, x: nat, j: nat, k: nat, next: nat)
    requires Shape(nodes, path, at) && Fresh(nodes, next) && j < k < |nodes[ROOT].children|
             && BelowTop(nodes, path, x, nodes[ROOT].children[j])
    ensures !BelowTop(nodes, path, x, nodes[ROOT].children[k])
  {
    hide Beneath;
    var tops := nodes[ROOT].children;
    TopChild(nodes, path, at, j, next);
    TopChild(nodes, path, at, k, next);
    if BelowTop(nodes, path, x, tops[k]) {
      AboveChild(nodes, path, at, x, tops[j], nodes[tops[j]].children[0]);
      AboveChild(nodes, path, at, x, tops[k], nodes[tops[k]].children[0]);
      Apart(nodes, path, at, x, ROOT, tops[j], tops[k]);
      ChildOf(nodes, path, at, ROOT, j, next);
    }
  }

  /** The part of the walk below one top. */
  function FromTop(nodes: Nodes, t: nat, next: nat): seq<nat> {
    if t in nodes && nodes[t].children != [] then Preorder(nodes, nodes[t].children[0], next) else []
  }

  lemma FromTopHas(nodes: Nodes, path: map<nat, Path>, at: map<Path, nat>, k: nat, next: nat)
    requires Shape(nodes, path, at) && Fresh(nodes, next) && k < |nodes[ROOT].children|
    ensures var t := nodes[ROOT].children[k];
            NoDups(FromTop(nodes, t, next)) && forall x ::
              x in FromTop(nodes, t, next) <==> x in nodes && BelowTop(nodes, path, x, t)
  {
    hide Beneath, Preorder;
    var t := nodes[ROOT].children[k];
    TopChild(nodes, path, at, k, next);
    if nodes[t].children != [] { PreorderHas(nodes, path, at, nodes[t].children[0], next); }
  }

  lemma {:induction false} FromTopsHas(nodes: Nodes, path: map<nat, Path>, at: map<Path, nat>, k: nat, next: nat)
    requires Shape(nodes, path, at) && Fresh(nodes, next) && k <= |nodes[ROOT].children|
    ensures var tops := nodes[ROOT].children;
            var order := FromTops(nodes, tops[..k], next);
            NoDups(order) && forall x ::
              x in order <==> x in nodes && exists j :: 0 <= j < k && BelowTop(nodes, path, x, tops[j])
  {
    if k > 0 {
      var tops := nodes[ROOT].children;
      hide FromTop, BelowTop, Shape, Fresh;
      FromTopsHas(nodes, path, at, k - 1, next);
      FromTopHas(nodes, path, at, k - 1, next);
      assert tops[..k][..k - 1] == tops[..k - 1];
      forall j, x | 0 <= j < k - 1 && BelowTop(nodes, path, x, tops[j]) ensures !BelowTop(nodes, path, x, tops[k - 1]) {
        TopsApart(nodes, path, at, x, j, k - 1, next);
      }
      NoDupsAppend(FromTops(nodes, tops[..k - 1], next), FromTop(nodes, tops[k - 1], next));
    }
  }

  // ----- the chunks of the walk -----

  /** A message of the store list, by its id. */
  function MessageAt(list: seq<Stored>, id: nat): Option<Message> {
    if list == [] then None
    else if list[|list| - 1].id == id then Some(list[|list| - 1].message)
    else MessageAt(list[..|list| - 1], id)
  }

  /** What a subscription looks like in the file. */
  function SubChunkOf(clients: seq<Client>, leaf: Leaf, filter: string): Chunk
    requires leaf.client < |clients| && OneByteEach(filter) && leaf.qos < 256
  {
    SubChunk(clients[leaf.client].session.id, BytesOf(filter), leaf.qos)
  }

  /** Subscriptions that can be written: of clients that there are, to filters of single bytes. */
  ghost predicate SubsFit(abs: map<(nat, Path), nat>, clients: seq<Client>) {
    forall k {:trigger k in abs} | k in abs ::
      && k.0 < |clients| && abs[k] < 256 && Proper(k.1)
      && OneByteEach(FilterAt(k.1)) && |FilterAt(k.1)| <= 65535
  }

  /** Retained messages are stored ones, and have a topic of some kind. */
  ghost predicate RetainedFit(ret: map<Path, nat>, list: seq<Stored>) {
    forall p {:trigger p in ret} | p in ret ::
      && 0 < ret[p] < TWO64 && MessageAt(list, ret[p]).Some?
      && MessageAt(list, ret[p]).value.topic.Some? && ValidTopic(MessageAt(list, ret[p]).value.topic.value)
  }

  /** A retained message that is written to the file. */
  predicate Goes(list: seq<Stored>, id: nat) {
    MessageAt(list, id).Some? && !OfSys(MessageAt(list, id).value)
  }

  /** A message as its publisher leaves it on the node of its own topic: marked as retained, and not empty. */
  predicate Own(m: Message, p: Path) {
    m.retain && m.payload != [] && m.topic.Some? && FullPath(m.topic.value) == p
  }

  ghost predicate AllOwn(ret: map<Path, nat>, list: seq<Stored>) {
    forall p {:trigger p in ret} | p in ret :: MessageAt(list, ret[p]).Some? && Own(MessageAt(list, ret[p]).value, p)
  }

  /** Whether a subscription is written to the file. */
  predicate LeafGoes(leaf: Leaf, filter: string, clients: seq<Client>) {
    leaf.client < |clients| && clients[leaf.client].persistent && leaf.qos < 256 && OneByteEach(filter)
  }

  function LeafChunks(subs: seq<Leaf>, filter: string, clients: seq<Client>): seq<Chunk> {
    if subs == [] then []
    else
      var leaf := subs[|subs| - 1];
      LeafChunks(subs[..|subs| - 1], filter, clients)
      + if LeafGoes(leaf, filter, clients) then [SubChunkOf(clients, leaf, filter)] else []
  }

  function RetainChunks(retained: Option<nat>, list: seq<Stored>): seq<Chunk> {
    if retained.Some? && Goes(list, retained.value) then [RetainChunk(retained.value)] else []
  }

  /** What a node holds: its subscriptions, then its retained message. */
  function ChunksAt(nodes: Nodes, path: map<nat, Path>, x: nat, clients: seq<Client>, list: seq<Stored>): seq<Chunk> {
    if x in nodes && x in path && path[x].Sub?
    then LeafChunks(nodes[x].subs, Walked(path[x]), clients) + RetainChunks(nodes[x].retained, list) else []
  }

  function ChunksOf(order: seq<nat>, nodes: Nodes, path: map<nat, Path>, clients: seq<Client>, list: seq<Stored>):
      seq<Chunk> {
    if order == [] then []
    else
      ChunksOf(order[..|order| - 1], nodes, path, clients, list)
      + ChunksAt(nodes, path, order[|order| - 1], clients, list)
  }

  /** All chunks of the tree, in their order. */
  function TreeChunks(nodes: Nodes, path: map<nat, Path>, next: nat, clients: seq<Client>, list: seq<Stored>):
      seq<Chunk> {
    ChunksOf(WalkOrder(nodes, next), nodes, path, clients, list)
  }

  lemma {:induction false} ChunksAppend(a: seq<nat>, b: seq<nat>, nodes: Nodes, path: map<nat, Path>,
                                        clients: seq<Client>, list: seq<Stored>)
    ensures ChunksOf(a + b, nodes, path, clients, list) ==
            ChunksOf(a, nodes, path, clients, list) + ChunksOf(b, nodes, path, clients, list)
  {
    hide ChunksAt;
    if b == [] {
      assert a + b == a;
    } else {
      var n := |b| - 1;
      assert (a + b)[..|a + b| - 1] == a + b[..n];
      ChunksAppend(a, b[..n], nodes, path, clients, list);
    }
  }

  lemma ChunksOne(x: nat, nodes: Nodes, path: map<nat, Path>, clients: seq<Client>, list: seq<Stored>)
    ensures ChunksOf([], nodes, path, clients, list) == []
    ensures ChunksOf([x], nodes, path, clients, list) == ChunksAt(nodes, path, x, clients, list)
  {
    hide ChunksAt;
    assert [x][..0] == [];
  }

  lemma {:induction false} InChunks(order: seq<nat>, nodes: Nodes, path: map<nat, Path>, clients: seq<Client>,
                                    list: seq<Stored>, c: Chunk)
    ensures c in ChunksOf(order, nodes, path, clients, list) <==>
              exists x :: x in order && c in ChunksAt(nodes, path, x, clients, list)
  {
    hide ChunksAt;
    if order != [] {
      var n := |order| - 1;
      InChunks(order[..n], nodes, path, clients, list, c);
      assert order == order[..n] + [order[n]];
    }
  }

  lemma {:induction false} InLeafChunks(subs: seq<Leaf>, filter: string, clients: seq<Client>, c: Chunk)
    ensures c in LeafChunks(subs, filter, clients) <==>
              exists i ::
                    0 <= i < |subs| && LeafGoes(subs[i], filter, clients) && c == SubChunkOf(clients, subs[i], filter)
    ensures c in LeafChunks(subs, filter, clients) ==> c.SubChunk?
  {
    if subs != [] {
      var n := |subs| - 1;
      InLeafChunks(subs[..n], filter, clients, c);
      if i :| 0 <= i < |subs| && LeafGoes(subs[i], filter, clients) && c == SubChunkOf(clients, subs[i], filter) {
        if i < n { assert subs[..n][i] == subs[i]; }
      }
    }
  }

  /** A node names a retained message once at most. */
  lemma NamesOnce(nodes: Nodes, path: map<nat, Path>, x: nat, clients: seq<Client>, list: seq<Stored>, m: nat)
    ensures var cs := ChunksAt(nodes, path, x, clients, list);
            && (RetainChunk(m) in cs <==>
                  x in nodes && x in path && path[x].Sub? && nodes[x].retained == Some(m) && Goes(list, m))
            && (forall i, j | 0 <= i < j < |cs| :: !(cs[i].RetainChunk? && cs[j].RetainChunk?))
  {
    hide LeafChunks, Goes, Walked;
    if x in nodes && x in path && path[x].Sub? {
      var leaves := LeafChunks(nodes[x].subs, Walked(path[x]), clients);
      forall c | c in leaves ensures c.SubChunk? {
        InLeafChunks(nodes[x].subs, Walked(path[x]), clients, c);
      }
      assert forall i | 0 <= i < |leaves| :: leaves[i] in leaves;
    }
  }

  /** The chunks that name a message come from different nodes. */
  lemma {:induction false} NamedTwice(order: seq<nat>, nodes: Nodes, path: map<nat, Path>, clients: seq<Client>,
                                      list: seq<Stored>, i: nat, j: nat, m: nat) returns (x: nat, y: nat)
    requires NoDups(order)
    requires var cs := ChunksOf(order, nodes, path, clients, list);
             i < j < |cs| && cs[i] == RetainChunk(m) && cs[j] == RetainChunk(m)
    ensures x in order && y in order && x != y && x in nodes && y in nodes && nodes[x].retained == Some(m)
            && nodes[y].retained == Some(m)
  {
    hide ChunksAt, Goes;
    var n := |order| - 1;
    var front, last := ChunksOf(order[..n], nodes, path, clients, list), ChunksAt(nodes, path, order[n], clients, list);
    if j < |front| {
      x, y := NamedTwice(order[..n], nodes, path, clients, list, i, j, m);
    } else {
      y := order[n];
      assert last[j - |front|] == RetainChunk(m);
      assert i >= |front| ==> last[i - |front|] == RetainChunk(m);
      NamesOnce(nodes, path, order[n], clients, list, m);
      assert RetainChunk(m) in front;
      InChunks(order[..n], nodes, path, clients, list, RetainChunk(m));
      x :| x in order[..n] && RetainChunk(m) in ChunksAt(nodes, path, x, clients, list);
      NamesOnce(nodes, path, x, clients, list, m);
    }
  }

  /** And two nodes that retain a message name it twice. */
  lemma NamesTwice(order: seq<nat>, nodes: Nodes, path: map<nat, Path>, clients: seq<Client>, list: seq<Stored>,
                   a: nat, b: nat, m: nat) returns (i: nat, j: nat)
    requires a < b < |order| && RetainChunk(m) in ChunksAt(nodes, path, order[a], clients, list)
             && RetainChunk(m) in ChunksAt(nodes, path, order[b], clients, list)
    ensures var cs := ChunksOf(order, nodes, path, clients, list);
            i < j < |cs| && cs[i] == RetainChunk(m) && cs[j] == RetainChunk(m)
  {
    hide ChunksAt, ChunksOf;
    var front, back := order[..b], order[b..];
    ChunksAppend(front, back, nodes, path, clients, list);
    assert front + back == order && front[a] == order[a] && back[0] == order[b];
    InChunks(front, nodes, path, clients, list, RetainChunk(m));
    InChunks(back, nodes, path, clients, list, RetainChunk(m));
    var cs, ds := ChunksOf(front, nodes, path, clients, list), ChunksOf(back, nodes, path, clients, list);
    i :| 0 <= i < |cs| && cs[i] == RetainChunk(m);
    var k: nat :| k < |ds| && ds[k] == RetainChunk(m);
    j := |cs| + k;
  }

  // ----- what the chunks stem from -----

  /** The chunk of a subscription in `abs`, or of a retained message in `ret`. */
  ghost predicate Stems(c: Chunk, abs: map<(nat, Path), nat>, ret: map<Path, nat>, clients: seq<Client>,
                        list: seq<Stored>) {
    (exists k: (nat, Path) ::
       k in abs && k.0 < |clients| && clients[k.0].persistent && abs[k] < 256 && Full(k.1) && OneByteEach(FilterAt(k.1))
            && c == SubChunkOf(clients, Leaf(k.0, abs[k]), FilterAt(k.1)))
    || (exists p :: p in ret && Goes(list, ret[p]) && c == RetainChunk(ret[p]))
  }

  /** The chunks are those of the subscriptions and retained messages, and all of these have one. */
  ghost predicate Covered(cs: seq<Chunk>, abs: map<(nat, Path), nat>, ret: map<Path, nat>, clients: seq<Client>,
                          list: seq<Stored>) {
    && (forall i | 0 <= i < |cs| :: Stems(cs[i], abs, ret, clients, list))
    && (forall k: (nat, Path) | k in abs && k.0 < |clients| && clients[k.0].persistent && abs[k] < 256 && Full(k.1)
        && OneByteEach(FilterAt(k.1)) ::
          SubChunkOf(clients, Leaf(k.0, abs[k]), FilterAt(k.1)) in cs)
    && (forall p | p in ret && Goes(list, ret[p]) :: RetainChunk(ret[p]) in cs)
  }

  /** The subscriptions and retained messages of a tree are exactly what its chunks stem from. */
  lemma TreeCovered(nodes: Nodes, next: nat, path: map<nat, Path>, at: map<Path, nat>, abs: map<(nat, Path), nat>,
                    ret: map<Path, nat>, subsOf: map<nat, seq<Option<nat>>>, clients: seq<Client>, list: seq<Stored>)
    requires Sound(nodes, next, path, at, abs, ret, subsOf) && SubsFit(abs, clients)
    ensures Covered(TreeChunks(nodes, path, next, clients, list), abs, ret, clients, list)
  {
    hide Sound, Stems, SubsFit, ChunksAt, ChunksOf, WalkOrder, Full, FilterAt, OneByteEach, Goes, SubChunkOf;
    SoundShape(nodes, next, path, at, abs, ret, subsOf);
    WalkOrderHas(nodes, path, at, next);
    var order := WalkOrder(nodes, next);
    var cs := TreeChunks(nodes, path, next, clients, list);
    forall i | 0 <= i < |cs| ensures Stems(cs[i], abs, ret, clients, list) {
      InChunks(order, nodes, path, clients, list, cs[i]);
      var x :| x in order && cs[i] in ChunksAt(nodes, path, x, clients, list);
      NodeStems(nodes, next, path, at, abs, ret, subsOf, clients, list, x, cs[i]);
    }
    forall k: (nat, Path) | k in abs && k.0 < |clients| && clients[k.0].persistent && abs[k] < 256 && Full(k.1)
                            && OneByteEach(FilterAt(k.1))
      ensures SubChunkOf(clients, Leaf(k.0, abs[k]), FilterAt(k.1)) in cs
    {
      SubHere(nodes, next, path, at, abs, ret, subsOf, clients, list, k);
      InChunks(order, nodes, path, clients, list, SubChunkOf(clients, Leaf(k.0, abs[k]), FilterAt(k.1)));
    }
    forall p | p in ret && Goes(list, ret[p]) ensures RetainChunk(ret[p]) in cs {
      RetainHere(nodes, next, path, at, abs, ret, subsOf, clients, list, p);
      InChunks(order, nodes, path, clients, list, RetainChunk(ret[p]));
    }
  }

  lemma SoundShape(nodes: Nodes, next: nat, path: map<nat, Path>, at: map<Path, nat>, abs: map<(nat, Path), nat>,
                   ret: map<Path, nat>, subsOf: map<nat, seq<Option<nat>>>)
    requires Sound(nodes, next, path, at, abs, ret, subsOf)
    ensures Shape(nodes, path, at) && Fresh(nodes, next) && AllDoubled(nodes, path)
  {
  }

  lemma NodeStems(nodes: Nodes, next: nat, path: map<nat, Path>, at: map<Path, nat>, abs: map<(nat, Path), nat>,
                  ret: map<Path, nat>, subsOf: map<nat, seq<Option<nat>>>, clients: seq<Client>, list: seq<Stored>,
                  x: nat, c: Chunk)
    requires Sound(nodes, next, path, at, abs, ret, subsOf) && SubsFit(abs, clients) && x in nodes
             && c in ChunksAt(nodes, path, x, clients, list)
    ensures Stems(c, abs, ret, clients, list)
  {
    hide Walked, FilterAt, Full, OneByteEach, Goes, LeafChunks;
    if c in LeafChunks(nodes[x].subs, Walked(path[x]), clients) {
      InLeafChunks(nodes[x].subs, Walked(path[x]), clients, c);
      var i :| 0 <= i < |nodes[x].subs| && LeafGoes(nodes[x].subs[i], Walked(path[x]), clients)
               && c == SubChunkOf(clients, nodes[x].subs[i], Walked(path[x]));
      assert LeavesOk(nodes, path, abs, x);
      var k := (nodes[x].subs[i].client, path[x]);
      assert k in abs && abs[k] == nodes[x].subs[i].qos && Full(path[x]);
      WalkedIsFilter(path[x]);
    } else {
      assert c == RetainChunk(nodes[x].retained.value) && path[x] in ret && ret[path[x]] == nodes[x].retained.value;
    }
  }

  lemma SubHere(nodes: Nodes, next: nat, path: map<nat, Path>, at: map<Path, nat>, abs: map<(nat, Path), nat>,
                ret: map<Path, nat>, subsOf: map<nat, seq<Option<nat>>>, clients: seq<Client>, list: seq<Stored>,
                k: (nat, Path))
    requires Sound(nodes, next, path, at, abs, ret, subsOf) && k in abs && k.0 < |clients| && clients[k.0].persistent
             && abs[k] < 256 && Full(k.1) && OneByteEach(FilterAt(k.1))
    ensures k.1 in at && at[k.1] in nodes && Deep(path, at[k.1])
            && SubChunkOf(clients, Leaf(k.0, abs[k]), FilterAt(k.1)) in ChunksAt(nodes, path, at[k.1], clients, list)
  {
    hide Walked, FilterAt, OneByteEach, Goes, LeafChunks;
    assert Subscribed(nodes, at, k);
    var x := at[k.1];
    FullIsDeep(k.1);
    WalkedIsFilter(k.1);
    var i :| 0 <= i < |nodes[x].subs| && nodes[x].subs[i].client == k.0;
    assert LeavesOk(nodes, path, abs, x);
    assert nodes[x].subs[i] == Leaf(k.0, abs[k]);
    InLeafChunks(nodes[x].subs, Walked(path[x]), clients, SubChunkOf(clients, Leaf(k.0, abs[k]), FilterAt(k.1)));
  }

  lemma RetainHere(nodes: Nodes, next: nat, path: map<nat, Path>, at: map<Path, nat>, abs: map<(nat, Path), nat>,
                   ret: map<Path, nat>, subsOf: map<nat, seq<Option<nat>>>, clients: seq<Client>, list: seq<Stored>,
                   p: Path)
    requires Sound(nodes, next, path, at, abs, ret, subsOf) && p in ret && Goes(list, ret[p])
    ensures p in at && at[p] in nodes && Deep(path, at[p]) && path[at[p]] == p
            && RetainChunk(ret[p]) in ChunksAt(nodes, path, at[p], clients, list)
  {
    hide Walked, Goes, ChunksAt;
    FullIsDeep(p);
    assert Named(nodes, path, at);
    NamesOnce(nodes, path, at[p], clients, list, ret[p]);
  }

  /** The node of a subscription or of a retained message is below a top. */
  lemma FullIsDeep(p: Path)
    requires Full(p)
    ensures p.Sub? && p.up.Sub?
  {
    if p.Sub? { assert Labels(p) == Labels(p.up) + [p.name]; }
  }

  /** A message is named twice just when two topics retain it. */
  lemma TwiceRetained(nodes: Nodes, next: nat, path: map<nat, Path>, at: map<Path, nat>, abs: map<(nat, Path), nat>,
                      ret: map<Path, nat>, subsOf: map<nat, seq<Option<nat>>>, clients: seq<Client>, list: seq<Stored>,
                      m: nat)
    requires Sound(nodes, next, path, at, abs, ret, subsOf) && Goes(list, m)
    ensures Twice(TreeChunks(nodes, path, next, clients, list), m) <==>
              exists p, q :: p in ret && q in ret && p != q && ret[p] == m && ret[q] == m
  {
    hide Sound, ChunksAt, ChunksOf, WalkOrder, Goes;
    SoundShape(nodes, next, path, at, abs, ret, subsOf);
    WalkOrderHas(nodes, path, at, next);
    var order, cs := WalkOrder(nodes, next), TreeChunks(nodes, path, next, clients, list);
    if Twice(cs, m) {
      var i: nat, j: nat :| i < j < |cs| && cs[i] == RetainChunk(m) && cs[j] == RetainChunk(m);
      var x, y := NamedTwice(order, nodes, path, clients, list, i, j, m);
      RetainedThere(nodes, next, path, at, abs, ret, subsOf, x);
      RetainedThere(nodes, next, path, at, abs, ret, subsOf, y);
    }
    if p, q :| p in ret && q in ret && p != q && ret[p] == m && ret[q] == m {
      RetainHere(nodes, next, path, at, abs, ret, subsOf, clients, list, p);
      RetainHere(nodes, next, path, at, abs, ret, subsOf, clients, list, q);
      var a: nat :| a < |order| && order[a] == at[p];
      var b: nat :| b < |order| && order[b] == at[q];
      if a < b {
        var i, j := NamesTwice(order, nodes, path, clients, list, a, b, m);
      } else {
        var i, j := NamesTwice(order, nodes, path, clients, list, b, a, m);
      }
    }
  }

  predicate Twice(cs: seq<Chunk>, m: nat) {
    exists i: nat, j: nat :: i < j < |cs| && cs[i] == RetainChunk(m) && cs[j] == RetainChunk(m)
  }

  lemma RetainedThere(nodes: Nodes, next: nat, path: map<nat, Path>, at: map<Path, nat>, abs: map<(nat, Path), nat>,
                      ret: map<Path, nat>, subsOf: map<nat, seq<Option<nat>>>, x: nat)
    requires Sound(nodes, next, path, at, abs, ret, subsOf) && x in nodes && nodes[x].retained.Some?
    ensures x in path && path[x] in ret && ret[path[x]] == nodes[x].retained.value && path[x] in at && at[path[x]] == x
  {
  }
}
