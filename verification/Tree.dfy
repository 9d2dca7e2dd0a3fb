/**
  The subscription tree of the broker. `nodes` is the memory its nodes live in: a reference that is not
  in its domain was never allocated or has been freed, so using a node after it was freed would show.
*/
module Tree {
  import opened Sequences
  import opened Wrappers
  import opened Topics

  /** The labels from a node up to the root. */
  datatype Path = Root | Sub(up: Path, name: string)

  /** The same labels read downward. */
  function Labels(p: Path): seq<string> {
    match p
    case Root => []
    case Sub(up, name) => Labels(up) + [name]
  }

  function Extend(p: Path, labels: seq<string>): Path
    decreases |labels|
  {
    if labels == [] then p else Extend(Sub(p, labels[0]), labels[1..])
  }

  /** The labels from `top` down to `p`, if `p` is not above or beside it. */
  function Suffix(p: Path, top: Path): Option<seq<string>> {
    if p == top then Some([])
    else match p
      case Root => None
      case Sub(up, name) =>
        var s := Suffix(up, top);
        if s.None? then None else Some(s.value + [name])
  }

  /** One client's subscription at a node. Clients are numbered; two live clients never share an id. */
  datatype Leaf = Leaf(client: nat, qos: nat)

  datatype Node = Node(parent: Option<nat>, topic: string, children: seq<nat>, subs: seq<Leaf>, retained: Option<nat>)

  type Nodes = map<nat, Node>

  // ----- the shape of the tree -----

  const ROOT: nat := 0

  /** `path` names every node and `at` finds the node of a name. */
  ghost predicate Named(nodes: Nodes, path: map<nat, Path>, at: map<Path, nat>) {
    && (forall r | r in nodes :: r in path && path[r] in at && at[path[r]] == r)
    && (forall p | p in at :: at[p] in nodes && at[p] in path && path[at[p]] == p)
  }

  /** A child is younger than its parent, so walks downward end; a node labelled '#' has no children. */
  ghost predicate Down(nodes: Nodes, path: map<nat, Path>, r: nat) {
    && r in nodes && r in path
    && NoDups(nodes[r].children)
    && (r != ROOT && nodes[r].topic == "#" ==> nodes[r].children == [])
    && forall c | c in nodes[r].children :: r < c && c in nodes && c in path && path[c] == Sub(path[r], nodes[c].topic)
  }

  /** Every node but the root hangs below another; only tops may not know their parent. */
  ghost predicate Hangs(nodes: Nodes, path: map<nat, Path>, at: map<Path, nat>, r: nat) {
    && r in nodes && r in path && path[r].Sub? && path[r].name == nodes[r].topic
    && path[r].up in at && at[path[r].up] in nodes && r in nodes[at[path[r].up]].children
    && (nodes[r].parent == Some(at[path[r].up]) || (nodes[r].parent == None && path[r].up == Root))
  }

  ghost predicate Shape(nodes: Nodes, path: map<nat, Path>, at: map<Path, nat>) {
    && Named(nodes, path, at)
    && ROOT in nodes && path[ROOT] == Root && nodes[ROOT].parent == None
    && (forall r {:trigger Down(nodes, path, r)} | r in nodes :: Down(nodes, path, r))
    && (forall r {:trigger Hangs(nodes, path, at, r)} | r in nodes && r != ROOT :: Hangs(nodes, path, at, r))
  }

  lemma ChildNamed(nodes: Nodes, path: map<nat, Path>, at: map<Path, nat>, p: Path)
    requires Shape(nodes, path, at) && p in at && p.Sub?
    ensures p.up in at && at[p.up] in nodes && at[p] in nodes[at[p.up]].children && nodes[at[p]].topic == p.name
  {
    assert Hangs(nodes, path, at, at[p]);
  }

  /** Going down one label more is a suffix with that label in front. */
  lemma {:induction false} SuffixStep(p: Path, q: Path, name: string)
    ensures Suffix(p, Sub(q, name)).Some? ==> Suffix(p, q) == Some([name] + Suffix(p, Sub(q, name)).value)
  {
    if p != Sub(q, name) && p.Sub? {
      SuffixStep(p.up, q, name);
      SuffixDepth(q, Sub(q, name));
      var s := Suffix(p.up, Sub(q, name));
      if s.Some? {
        assert [name] + s.value + [p.name] == [name] + (s.value + [p.name]);
      }
    } else if p == Sub(q, name) {
      SuffixDepth(q, p);
      assert Suffix(q, q) == Some([]) && [] + [name] == [name] + [];
    }
  }

  lemma {:induction false} SuffixDepth(p: Path, top: Path)
    ensures Suffix(p, top).Some? ==> |Labels(p)| == |Labels(top)| + |Suffix(p, top).value|
  {
    if p != top && p.Sub? { SuffixDepth(p.up, top); }
  }

  lemma SiblingsDiffer(nodes: Nodes, path: map<nat, Path>, at: map<Path, nat>, r: nat, b: nat, c: nat)
    requires Shape(nodes, path, at) && r in nodes && b in nodes[r].children && c in nodes[r].children && b != c
    ensures b in nodes && c in nodes && nodes[b].topic != nodes[c].topic
  {
    assert Down(nodes, path, r);
    assert at[path[b]] == b && at[path[c]] == c;
  }

  function AddedNodes(nodes: Nodes, r: nat, topic: string, first: bool, c: nat): Nodes
    requires r in nodes
  {
    var cs := nodes[r].children;
    nodes[r := nodes[r].(children := if first then [c] + cs else cs + [c])][c := Node(Some(r), topic, [], [], None)]
  }

  predicate Fresh(nodes: Nodes, c: nat) {
    forall r | r in nodes :: r < c
  }

  lemma AddChild(nodes: Nodes, path: map<nat, Path>, at: map<Path, nat>, r: nat, topic: string, first: bool, c: nat)
    requires Shape(nodes, path, at) && r in nodes
    requires r == ROOT || nodes[r].topic != "#"
    requires forall x | x in nodes[r].children && x in nodes :: nodes[x].topic != topic
    requires Fresh(nodes, c)
    ensures Sub(path[r], topic) !in at
    ensures Shape(AddedNodes(nodes, r, topic, first, c), path[c := Sub(path[r], topic)], at[Sub(path[r], topic) := c])
  {
    var p := Sub(path[r], topic);
    if p in at {
      ChildNamed(nodes, path, at, p);
      assert false;
    }
    var nodes', path', at' := AddedNodes(nodes, r, topic, first, c), path[c := p], at[p := c];
    AddedNamed(nodes, path, at, r, topic, first, c);
    assert Down(nodes, path, r);
    forall x | x in nodes' ensures Down(nodes', path', x) {
      AddedDown(nodes, path, r, topic, first, c, x);
    }
    forall x | x in nodes' && x != ROOT ensures Hangs(nodes', path', at', x) {
      AddedHangs(nodes, path, at, r, topic, first, c, x);
    }
  }

  lemma AddedHangs(nodes: Nodes, path: map<nat, Path>, at: map<Path, nat>, r: nat, topic: string, first: bool, c: nat,
                   x: nat)
    requires r in nodes && c !in nodes && r in path && path[r] in at && at[path[r]] == r && Sub(path[r], topic) !in at
    requires x == c || (Hangs(nodes, path, at, x) && x != c)
    ensures Hangs(AddedNodes(nodes, r, topic, first, c), path[c := Sub(path[r], topic)], at[Sub(path[r], topic) := c],
                  x)
  {
    var cs := nodes[r].children;
    assert c in cs + [c] && c in [c] + cs;
    if x != c {
      assert path[x].up in at;
    }
  }

  lemma AddedNamed(nodes: Nodes, path: map<nat, Path>, at: map<Path, nat>, r: nat, topic: string, first: bool, c: nat)
    requires Named(nodes, path, at) && r in nodes && c !in nodes && Sub(path[r], topic) !in at
    ensures Named(AddedNodes(nodes, r, topic, first, c), path[c := Sub(path[r], topic)], at[Sub(path[r], topic) := c])
  {
  }

  lemma AddedDown(nodes: Nodes, path: map<nat, Path>, r: nat, topic: string, first: bool, c: nat, x: nat)
    requires r in nodes && Fresh(nodes, c) && (x == c || Down(nodes, path, x)) && Down(nodes, path, r)
    requires r == ROOT || nodes[r].topic != "#"
    ensures Down(AddedNodes(nodes, r, topic, first, c), path[c := Sub(path[r], topic)], x)
  {
    WithOneMore(nodes[r].children, c);
  }

  function DroppedNodes(nodes: Nodes, r: nat, k: nat): Nodes
    requires r in nodes && k < |nodes[r].children|
  {
    var cs := nodes[r].children;
    nodes[r := nodes[r].(children := cs[..k] + cs[k + 1..])] - {cs[k]}
  }

  lemma DropChild(nodes: Nodes, path: map<nat, Path>, at: map<Path, nat>, r: nat, k: nat)
    requires Shape(nodes, path, at) && r in nodes && k < |nodes[r].children|
    requires nodes[r].children[k] in nodes && nodes[nodes[r].children[k]].children == []
    ensures Shape(DroppedNodes(nodes, r, k), path, at - {Sub(path[r], nodes[nodes[r].children[k]].topic)})
  {
    var cs := nodes[r].children;
    var c := cs[k];
    assert c in cs && Down(nodes, path, r);
    var nodes', at' := DroppedNodes(nodes, r, k), at - {path[c]};
    DroppedNamed(nodes, path, at, r, k);
    forall x | x in nodes' ensures Down(nodes', path, x) {
      DroppedDown(nodes, path, at, r, k, x);
    }
    WithoutOne(cs, k);
    forall x | x in nodes' && x != ROOT ensures Hangs(nodes', path, at', x) {
      DroppedHangs(nodes, path, at, r, k, x);
    }
  }

  lemma DroppedHangs(nodes: Nodes, path: map<nat, Path>, at: map<Path, nat>, r: nat, k: nat, x: nat)
    requires Shape(nodes, path, at) && r in nodes && k < |nodes[r].children| && x in DroppedNodes(nodes, r, k)
             && x != ROOT
    requires nodes[r].children[k] in nodes && nodes[nodes[r].children[k]].children == []
    ensures nodes[r].children[k] in path && Hangs(DroppedNodes(nodes, r, k), path, at - {path[nodes[r].children[k]]}, x)
  {
    var cs := nodes[r].children;
    assert cs[k] in cs && Down(nodes, path, r) && Hangs(nodes, path, at, x);
    WithoutOne(cs, k);
  }

  lemma DroppedNamed(nodes: Nodes, path: map<nat, Path>, at: map<Path, nat>, r: nat, k: nat)
    requires Named(nodes, path, at) && Down(nodes, path, r) && k < |nodes[r].children|
    requires nodes[r].children[k] in nodes
    ensures Named(DroppedNodes(nodes, r, k), path, at - {path[nodes[r].children[k]]})
  {
    assert nodes[r].children[k] in nodes[r].children;
  }

  lemma DroppedDown(nodes: Nodes, path: map<nat, Path>, at: map<Path, nat>, r: nat, k: nat, x: nat)
    requires Named(nodes, path, at) && Down(nodes, path, r) && Down(nodes, path, x)
    requires k < |nodes[r].children| && x != nodes[r].children[k]
    ensures Down(DroppedNodes(nodes, r, k), path, x)
  {
    var cs := nodes[r].children;
    WithoutOne(cs, k);
    assert cs[k] in cs;
  }

  /** What a node holds does not matter to the shape. */
  lemma Refill(nodes: Nodes, path: map<nat, Path>, at: map<Path, nat>, r: nat, subs: seq<Leaf>, retained: Option<nat>)
    requires Shape(nodes, path, at) && r in nodes
    ensures Shape(nodes[r := nodes[r].(subs := subs, retained := retained)], path, at)
  {
    var nodes' := nodes[r := nodes[r].(subs := subs, retained := retained)];
    forall x | x in nodes' ensures Down(nodes', path, x) {
      assert Down(nodes, path, x);
    }
    forall x | x in nodes' && x != ROOT ensures Hangs(nodes', path, at, x) {
      assert Hangs(nodes, path, at, x);
    }
  }

  // ----- filters and paths -----

  /** The node of a filter: its first token names the top of the tree and is then repeated below it. */
  function FullPath(filter: string): Path {
    Extend(Sub(Root, Tokens(filter)[0]), Tokens(filter))
  }

  lemma {:induction false} LabelsExtend(p: Path, labels: seq<string>)
    ensures Labels(Extend(p, labels)) == Labels(p) + labels
    decreases |labels|
  {
    if labels != [] {
      LabelsExtend(Sub(p, labels[0]), labels[1..]);
    }
  }

  lemma {:induction false} LabelsInjective(p: Path, q: Path)
    requires Labels(p) == Labels(q)
    ensures p == q
  {
    if p.Sub? && q.Sub? {
      assert Labels(p)[..|Labels(p)| - 1] == Labels(p.up) && Labels(q)[..|Labels(q)| - 1] == Labels(q.up);
      LabelsInjective(p.up, q.up);
    }
  }

  lemma FullPathLabels(filter: string)
    ensures Labels(FullPath(filter)) == [Tokens(filter)[0]] + Tokens(filter)
  {
    LabelsExtend(Sub(Root, Tokens(filter)[0]), Tokens(filter));
    assert Labels(Root) + [Tokens(filter)[0]] == [Tokens(filter)[0]];
  }

  /** Different filters have different nodes. */
  lemma FullPathInjective(filter: string, other: string)
    requires FullPath(filter) == FullPath(other)
    ensures filter == other
  {
    FullPathLabels(filter);
    FullPathLabels(other);
    assert Labels(FullPath(filter))[1..] == Tokens(filter) && Labels(FullPath(other))[1..] == Tokens(other);
    TokensInjective(filter, other);
  }

  /** The paths that filters have. */
  predicate Full(p: Path) {
    var ls := Labels(p);
    && |ls| >= 2 && ls[0] == ls[1] && (forall l | l in ls :: NoSlash(l))
    && (StartsWithDollar(ls[0]) || (ls[0] == "" && |ls| >= 3 && !StartsWithDollar(ls[2])))
  }

  function FilterAt(p: Path): string
    requires Full(p)
  {
    if Labels(p)[0] == "" then Join(Labels(p)[2..]) else Join(Labels(p)[1..])
  }

  lemma FullPathIsFull(filter: string)
    ensures Full(FullPath(filter)) && FilterAt(FullPath(filter)) == filter
  {
    FullPathLabels(filter);
    var p := Labels(FullPath(filter));
    SplitHasNoSlash(filter);
    FirstLevel(filter);
    JoinSplit(filter);
    if StartsWithDollar(filter) {
      assert p[1..] == Split(filter);
    } else {
      assert p == ["", ""] + Split(filter) && p[2..] == Split(filter);
    }
  }

  lemma FilterAtPath(p: Path)
    requires Full(p)
    ensures FullPath(FilterAt(p)) == p
  {
    var ls := Labels(p);
    var levels := if ls[0] == "" then ls[2..] else ls[1..];
    SplitJoin(levels);
    FirstLevel(Join(levels));
    FullPathLabels(FilterAt(p));
    assert ls == [ls[0], ls[1]] + ls[2..];
    LabelsInjective(FullPath(FilterAt(p)), p);
  }

  /** The path of a valid filter. */
  predicate Proper(p: Path) {
    Full(p) && ValidFilter(FilterAt(p))
  }

  ghost predicate AllProper(abs: map<(nat, Path), nat>) {
    forall k | k in abs :: Proper(k.1)
  }

  lemma ProperPath(filter: string)
    requires ValidFilter(filter)
    ensures Proper(FullPath(filter))
  {
    FullPathIsFull(filter);
  }

  // ----- what the nodes hold -----

  predicate HasLeaf(subs: seq<Leaf>, client: nat) {
    exists i :: 0 <= i < |subs| && subs[i].client == client
  }

  /** The leaves of a node are the subscriptions of distinct clients to the node's filter. */
  ghost predicate LeavesOk(nodes: Nodes, path: map<nat, Path>, abs: map<(nat, Path), nat>, r: nat) {
    && r in nodes && r in path
    && (forall i | 0 <= i < |nodes[r].subs| ::
          (nodes[r].subs[i].client, path[r]) in abs && abs[(nodes[r].subs[i].client, path[r])] == nodes[r].subs[i].qos)
    && (forall i, j | 0 <= i < j < |nodes[r].subs| :: nodes[r].subs[i].client != nodes[r].subs[j].client)
  }

  ghost predicate Subscribed(nodes: Nodes, at: map<Path, nat>, key: (nat, Path)) {
    Full(key.1) && key.1 in at && at[key.1] in nodes && HasLeaf(nodes[at[key.1]].subs, key.0)
  }

  /** The tree holds exactly the subscriptions `abs`. */
  ghost predicate Holds(nodes: Nodes, path: map<nat, Path>, at: map<Path, nat>, abs: map<(nat, Path), nat>) {
    && (forall r {:trigger LeavesOk(nodes, path, abs, r)} | r in nodes :: LeavesOk(nodes, path, abs, r))
    && (forall k {:trigger Subscribed(nodes, at, k)} | k in abs :: Subscribed(nodes, at, k))
  }

  /** A client's slots are its nodes: each slot in use names a node with its leaf, and each such node has one slot. */
  ghost predicate SlotsOk(nodes: Nodes, slots: seq<Option<nat>>, client: nat) {
    && (forall i | 0 <= i < |slots| && slots[i].Some? ::
          slots[i].value in nodes && HasLeaf(nodes[slots[i].value].subs, client))
    && (forall i, j | 0 <= i < j < |slots| && slots[i].Some? :: slots[i] != slots[j])
    && (forall r | r in nodes && HasLeaf(nodes[r].subs, client) :: Some(r) in slots)
  }

  ghost predicate BackPointers(nodes: Nodes, subsOf: map<nat, seq<Option<nat>>>) {
    && (forall c {:trigger SlotsOk(nodes, subsOf[c], c)} | c in subsOf :: SlotsOk(nodes, subsOf[c], c))
    && (forall r, c | r in nodes && HasLeaf(nodes[r].subs, c) :: c in subsOf)
  }

  /** The tree keeps exactly the retained messages `ret`, and only under names without wildcards. */
  ghost predicate Keeps(nodes: Nodes, path: map<nat, Path>, at: map<Path, nat>, ret: map<Path, nat>) {
    && (forall r | r in nodes && nodes[r].retained.Some? ::
          r in path && path[r] in ret && ret[path[r]] == nodes[r].retained.value)
    && (forall p | p in ret ::
          Full(p) && LiteralLevels(Labels(p)) && p in at && at[p] in nodes && nodes[at[p]].retained.Some?)
  }

  /** Nodes that hold nothing may come and go. */
  ghost predicate SameHoldings(nodes: Nodes, nodes': Nodes, path: map<nat, Path>, path': map<nat, Path>,
                               at: map<Path, nat>, at': map<Path, nat>) {
    && (forall x | x in nodes' ::
          if x in nodes then x in path && x in path' && path'[x] == path[x]
                             && nodes'[x].subs == nodes[x].subs && nodes'[x].retained == nodes[x].retained
          else x in path' && nodes'[x].subs == [] && nodes'[x].retained == None)
    && (forall x | x in nodes && x !in nodes' :: nodes[x].subs == [] && nodes[x].retained == None)
    && (forall p | p in at && at[p] in nodes' :: p in at' && at'[p] == at[p])
  }

  lemma HoldingsKept(nodes: Nodes, nodes': Nodes, path: map<nat, Path>, path': map<nat, Path>, at: map<Path, nat>,
                     at': map<Path, nat>, abs: map<(nat, Path), nat>, ret: map<Path, nat>,
                     subsOf: map<nat, seq<Option<nat>>>)
    requires SameHoldings(nodes, nodes', path, path', at, at')
    requires Holds(nodes, path, at, abs) && BackPointers(nodes, subsOf) && Keeps(nodes, path, at, ret)
    ensures Holds(nodes', path', at', abs) && BackPointers(nodes', subsOf) && Keeps(nodes', path', at', ret)
  {
    LeavesKept(nodes, nodes', path, path', at, at', abs);
    SlotsKept(nodes, nodes', subsOf);
  }

  lemma LeavesKept(nodes: Nodes, nodes': Nodes, path: map<nat, Path>, path': map<nat, Path>, at: map<Path, nat>,
                   at': map<Path, nat>, abs: map<(nat, Path), nat>)
    requires SameHoldings(nodes, nodes', path, path', at, at') && Holds(nodes, path, at, abs)
    ensures Holds(nodes', path', at', abs)
  {
    forall r | r in nodes' ensures LeavesOk(nodes', path', abs, r) {
      if r in nodes { assert LeavesOk(nodes, path, abs, r); }
    }
    forall k | k in abs ensures Subscribed(nodes', at', k) {
      assert Subscribed(nodes, at, k);
    }
  }

  lemma SlotsKept(nodes: Nodes, nodes': Nodes, subsOf: map<nat, seq<Option<nat>>>)
    requires BackPointers(nodes, subsOf)
    requires forall x | x in nodes' :: nodes'[x].subs == if x in nodes then nodes[x].subs else []
    requires forall x | x in nodes && x !in nodes' :: nodes[x].subs == []
    ensures BackPointers(nodes', subsOf)
  {
    forall c | c in subsOf ensures SlotsOk(nodes', subsOf[c], c) {
      assert SlotsOk(nodes, subsOf[c], c);
    }
  }

  lemma AddedHoldings(nodes: Nodes, path: map<nat, Path>, at: map<Path, nat>, r: nat, topic: string, first: bool,
                      c: nat, abs: map<(nat, Path), nat>, ret: map<Path, nat>, subsOf: map<nat, seq<Option<nat>>>)
    requires Named(nodes, path, at) && r in nodes && c !in nodes && Sub(path[r], topic) !in at
    requires Holds(nodes, path, at, abs) && BackPointers(nodes, subsOf) && Keeps(nodes, path, at, ret)
    ensures var nodes', path', at' := AddedNodes(nodes, r, topic, first, c), path[c := Sub(path[r], topic)],
            at[Sub(path[r], topic) := c];
            Holds(nodes', path', at', abs) && BackPointers(nodes', subsOf) && Keeps(nodes', path', at', ret)
  {
    HoldingsKept(nodes, AddedNodes(nodes, r, topic, first, c), path, path[c := Sub(path[r], topic)],
                 at, at[Sub(path[r], topic) := c], abs, ret, subsOf);
  }

  lemma DroppedHoldings(nodes: Nodes, path: map<nat, Path>, at: map<Path, nat>, r: nat, k: nat,
                        abs: map<(nat, Path), nat>, ret: map<Path, nat>, subsOf: map<nat, seq<Option<nat>>>)
    requires Named(nodes, path, at) && r in nodes && k < |nodes[r].children|
    requires var c := nodes[r].children[k]; c in nodes && c != r && nodes[c].subs == [] && nodes[c].retained == None
    requires Holds(nodes, path, at, abs) && BackPointers(nodes, subsOf) && Keeps(nodes, path, at, ret)
    ensures var nodes', at' := DroppedNodes(nodes, r, k), at - {path[nodes[r].children[k]]};
            Holds(nodes', path, at', abs) && BackPointers(nodes', subsOf) && Keeps(nodes', path, at', ret)
  {
    HoldingsKept(nodes, DroppedNodes(nodes, r, k), path, path, at, at - {path[nodes[r].children[k]]}, abs, ret, subsOf);
  }

  function WithLeaves(nodes: Nodes, r: nat, subs: seq<Leaf>): Nodes
    requires r in nodes
  {
    nodes[r := nodes[r].(subs := subs)]
  }

  /** Other nodes do not notice that the leaves of `r` change from what `abs` says to what `abs'` says. */
  lemma HoldsWithLeaves(nodes: Nodes, path: map<nat, Path>, at: map<Path, nat>, abs: map<(nat, Path), nat>,
                        abs': map<(nat, Path), nat>, r: nat, subs': seq<Leaf>)
    requires Named(nodes, path, at) && Holds(nodes, path, at, abs) && r in nodes && Full(path[r])
    requires LeavesOk(WithLeaves(nodes, r, subs'), path, abs', r)
    requires forall k | k in abs + abs' && k.1 != path[r] :: k in abs && k in abs' && abs'[k] == abs[k]
    requires forall k | k in abs' && k.1 == path[r] :: HasLeaf(subs', k.0)
    ensures Holds(WithLeaves(nodes, r, subs'), path, at, abs')
  {
    hide Full, HasLeaf;
    var nodes' := WithLeaves(nodes, r, subs');
    forall x | x in nodes' ensures LeavesOk(nodes', path, abs', x) {
      if x != r {
        assert LeavesOk(nodes, path, abs, x) && path[x] != path[r];
      }
    }
    forall k | k in abs' ensures Subscribed(nodes', at, k) {
      if k.1 != path[r] { assert Subscribed(nodes, at, k); }
    }
  }

  lemma KeepsWithLeaves(nodes: Nodes, path: map<nat, Path>, at: map<Path, nat>, ret: map<Path, nat>, r: nat,
                        subs': seq<Leaf>)
    requires Keeps(nodes, path, at, ret) && r in nodes
    ensures Keeps(WithLeaves(nodes, r, subs'), path, at, ret)
  {
    hide Full, LiteralLevels;
  }

  /** A leaf stands for a subscription, and so its node for a filter. */
  lemma LeafIsFull(nodes: Nodes, path: map<nat, Path>, at: map<Path, nat>, abs: map<(nat, Path), nat>, r: nat, i: nat)
    requires Holds(nodes, path, at, abs) && r in nodes && i < |nodes[r].subs|
    ensures LeavesOk(nodes, path, abs, r) && (nodes[r].subs[i].client, path[r]) in abs && Full(path[r])
  {
    hide Full, HasLeaf;
    assert LeavesOk(nodes, path, abs, r);
    assert Subscribed(nodes, at, (nodes[r].subs[i].client, path[r]));
  }

  /** A client has a leaf at its own filters only. */
  lemma LeafOfSubscription(nodes: Nodes, path: map<nat, Path>, at: map<Path, nat>, abs: map<(nat, Path), nat>, r: nat)
    requires Named(nodes, path, at) && Holds(nodes, path, at, abs) && r in nodes
    ensures forall k | k in abs && k.1 == path[r] :: HasLeaf(nodes[r].subs, k.0)
  {
    hide Full, HasLeaf;
    forall k | k in abs && k.1 == path[r] ensures HasLeaf(nodes[r].subs, k.0) {
      assert Subscribed(nodes, at, k);
    }
  }

  lemma LeafOfChanged(subs: seq<Leaf>, i: nat, qos: nat, y: nat)
    requires i < |subs|
    ensures HasLeaf(subs[i := Leaf(subs[i].client, qos)], y) <==> HasLeaf(subs, y)
  {
    var subs' := subs[i := Leaf(subs[i].client, qos)];
    if HasLeaf(subs, y) {
      var j :| 0 <= j < |subs| && subs[j].client == y;
      assert subs'[j].client == y;
    }
  }

  lemma LeafOfAdded(subs: seq<Leaf>, c: nat, qos: nat, y: nat)
    ensures HasLeaf(subs + [Leaf(c, qos)], y) <==> y == c || HasLeaf(subs, y)
  {
    var subs' := subs + [Leaf(c, qos)];
    assert subs'[|subs|].client == c;
    if HasLeaf(subs, y) {
      var j :| 0 <= j < |subs| && subs[j].client == y;
      assert subs'[j].client == y;
    }
  }

  lemma LeafOfTaken(subs: seq<Leaf>, i: nat, y: nat)
    requires i < |subs| && forall j, k | 0 <= j < k < |subs| :: subs[j].client != subs[k].client
    ensures HasLeaf(subs[..i] + subs[i + 1..], y) <==> y != subs[i].client && HasLeaf(subs, y)
  {
    var subs' := subs[..i] + subs[i + 1..];
    assert forall j | 0 <= j < |subs'| :: subs'[j] == subs[Skipping(i, j)];
    if y != subs[i].client && HasLeaf(subs, y) {
      var j :| 0 <= j < |subs| && subs[j].client == y;
      assert subs'[if j < i then j else j - 1].client == y;
    }
  }

  /** A second subscription of the same client only changes the QoS. */
  lemma LeafChanged(nodes: Nodes, path: map<nat, Path>, at: map<Path, nat>, abs: map<(nat, Path), nat>,
                    subsOf: map<nat, seq<Option<nat>>>, ret: map<Path, nat>, r: nat, i: nat, qos: nat)
    requires Named(nodes, path, at) && Holds(nodes, path, at, abs) && BackPointers(nodes, subsOf)
             && Keeps(nodes, path, at, ret)
    requires r in nodes && i < |nodes[r].subs|
    ensures var c := nodes[r].subs[i].client;
            var nodes' := WithLeaves(nodes, r, nodes[r].subs[i := Leaf(c, qos)]);
            Holds(nodes', path, at, abs[(c, path[r]) := qos]) && BackPointers(nodes', subsOf)
                && Keeps(nodes', path, at, ret)
  {
    hide Full, Named, Holds, BackPointers, Keeps, HasLeaf;
    var c := nodes[r].subs[i].client;
    var subs' := nodes[r].subs[i := Leaf(c, qos)];
    LeafIsFull(nodes, path, at, abs, r, i);
    LeafOfSubscription(nodes, path, at, abs, r);
    forall y ensures HasLeaf(subs', y) <==> HasLeaf(nodes[r].subs, y) {
      LeafOfChanged(nodes[r].subs, i, qos, y);
    }
    HasLeafHere(nodes[r].subs, i);
    HoldsWithLeaves(nodes, path, at, abs, abs[(c, path[r]) := qos], r, subs');
    SlotsUnchanged(nodes, subsOf, r, subs');
    KeepsWithLeaves(nodes, path, at, ret, r, subs');
  }

  lemma HasLeafHere(subs: seq<Leaf>, i: nat)
    requires i < |subs|
    ensures HasLeaf(subs, subs[i].client)
  {
  }

  lemma SlotsUnchanged(nodes: Nodes, subsOf: map<nat, seq<Option<nat>>>, r: nat, subs': seq<Leaf>)
    requires BackPointers(nodes, subsOf) && r in nodes && forall y :: HasLeaf(subs', y) <==> HasLeaf(nodes[r].subs, y)
    ensures BackPointers(WithLeaves(nodes, r, subs'), subsOf)
  {
    hide HasLeaf;
    forall y | y in subsOf ensures SlotsOk(WithLeaves(nodes, r, subs'), subsOf[y], y) {
      assert SlotsOk(nodes, subsOf[y], y);
    }
  }

  /** A new leaf goes to the end of the node's list, and a slot that was free, or a new one, names the node. */
  lemma LeafAdded(nodes: Nodes, path: map<nat, Path>, at: map<Path, nat>, abs: map<(nat, Path), nat>,
                  subsOf: map<nat, seq<Option<nat>>>, ret: map<Path, nat>, r: nat, c: nat, qos: nat,
                  slots': seq<Option<nat>>)
    requires Named(nodes, path, at) && Holds(nodes, path, at, abs) && BackPointers(nodes, subsOf)
             && Keeps(nodes, path, at, ret)
    requires r in nodes && !HasLeaf(nodes[r].subs, c) && Full(path[r]) && c in subsOf
    requires slots' == subsOf[c] + [Some(r)] || exists i ::
               0 <= i < |subsOf[c]| && subsOf[c][i].None? && slots' == subsOf[c][i := Some(r)]
    ensures var nodes' := WithLeaves(nodes, r, nodes[r].subs + [Leaf(c, qos)]);
            Holds(nodes', path, at, abs[(c, path[r]) := qos]) && BackPointers(nodes', subsOf[c := slots'])
                && Keeps(nodes', path, at, ret)
  {
    hide Full, Named, BackPointers, Keeps, HasLeaf, Subscribed;
    var subs' := nodes[r].subs + [Leaf(c, qos)];
    LeafOfSubscription(nodes, path, at, abs, r);
    forall y ensures HasLeaf(subs', y) <==> y == c || HasLeaf(nodes[r].subs, y) {
      LeafOfAdded(nodes[r].subs, c, qos, y);
    }
    assert LeavesOk(nodes, path, abs, r);
    forall i | 0 <= i < |nodes[r].subs| ensures nodes[r].subs[i].client != c {
      HasLeafHere(nodes[r].subs, i);
    }
    HoldsWithLeaves(nodes, path, at, abs, abs[(c, path[r]) := qos], r, subs');
    SlotsAfterAdding(nodes, subsOf, r, c, slots', subs');
    KeepsWithLeaves(nodes, path, at, ret, r, subs');
  }

  lemma SlotsAfterAdding(nodes: Nodes, subsOf: map<nat, seq<Option<nat>>>, r: nat, c: nat, slots': seq<Option<nat>>,
                         subs': seq<Leaf>)
    requires BackPointers(nodes, subsOf) && r in nodes && c in subsOf && !HasLeaf(nodes[r].subs, c)
    requires forall y :: HasLeaf(subs', y) <==> y == c || HasLeaf(nodes[r].subs, y)
    requires slots' == subsOf[c] + [Some(r)] || exists i ::
               0 <= i < |subsOf[c]| && subsOf[c][i].None? && slots' == subsOf[c][i := Some(r)]
    ensures BackPointers(WithLeaves(nodes, r, subs'), subsOf[c := slots'])
  {
    hide HasLeaf;
    var nodes', subsOf' := WithLeaves(nodes, r, subs'), subsOf[c := slots'];
    forall y | y in subsOf' ensures SlotsOk(nodes', subsOf'[y], y) {
      assert SlotsOk(nodes, subsOf[y], y);
      if y == c { SlotTaken(nodes, subsOf[c], c, r, slots'); }
    }
  }

  lemma SlotTaken(nodes: Nodes, slots: seq<Option<nat>>, c: nat, r: nat, slots': seq<Option<nat>>)
    requires SlotsOk(nodes, slots, c) && r in nodes && !HasLeaf(nodes[r].subs, c)
    requires slots' == slots + [Some(r)] || exists i ::
               0 <= i < |slots| && slots[i].None? && slots' == slots[i := Some(r)]
    ensures forall i | 0 <= i < |slots'| && slots'[i].Some? :: slots'[i].value == r || slots'[i] in slots
    ensures forall i, j | 0 <= i < j < |slots'| && slots'[i].Some? :: slots'[i] != slots'[j]
    ensures Some(r) in slots' && forall s | s in slots && s.Some? :: s in slots'
  {
    assert Some(r) !in slots;
    if slots' == slots + [Some(r)] {
      assert slots'[|slots|] == Some(r);
    } else {
      var i :| 0 <= i < |slots| && slots[i].None? && slots' == slots[i := Some(r)];
      assert slots'[i] == Some(r);
      forall s | s in slots && s.Some? ensures s in slots' {
        var j :| 0 <= j < |slots| && slots[j] == s;
        assert slots'[j] == s;
      }
    }
  }

  /** A leaf that is taken away leaves the node's list and the client's slots. */
  lemma LeafTaken(nodes: Nodes, path: map<nat, Path>, at: map<Path, nat>, abs: map<(nat, Path), nat>,
                  subsOf: map<nat, seq<Option<nat>>>, ret: map<Path, nat>, r: nat, i: nat, k: nat)
    requires Named(nodes, path, at) && Holds(nodes, path, at, abs) && BackPointers(nodes, subsOf)
             && Keeps(nodes, path, at, ret)
    requires r in nodes && i < |nodes[r].subs|
    requires var c := nodes[r].subs[i].client; c in subsOf && k < |subsOf[c]| && subsOf[c][k] == Some(r)
    ensures var c := nodes[r].subs[i].client;
            var nodes' := WithLeaves(nodes, r, nodes[r].subs[..i] + nodes[r].subs[i + 1..]);
            && Holds(nodes', path, at, abs - {(c, path[r])})
            && BackPointers(nodes', subsOf[c := subsOf[c][k := None]])
            && Keeps(nodes', path, at, ret)
            && !HasLeaf(nodes'[r].subs, c)
  {
    hide Full, Named, Holds, BackPointers, Keeps, HasLeaf;
    var c := nodes[r].subs[i].client;
    var subs, subs' := nodes[r].subs, nodes[r].subs[..i] + nodes[r].subs[i + 1..];
    LeafIsFull(nodes, path, at, abs, r, i);
    LeafOfSubscription(nodes, path, at, abs, r);
    forall y ensures HasLeaf(subs', y) <==> y != c && HasLeaf(subs, y) {
      LeafOfTaken(subs, i, y);
    }
    assert forall j | 0 <= j < |subs'| :: subs'[j] == subs[Skipping(i, j)];
    HoldsWithLeaves(nodes, path, at, abs, abs - {(c, path[r])}, r, subs');
    SlotsAfterTaking(nodes, subsOf, r, c, k, subs');
    KeepsWithLeaves(nodes, path, at, ret, r, subs');
  }

  lemma SlotsAfterTaking(nodes: Nodes, subsOf: map<nat, seq<Option<nat>>>, r: nat, c: nat, k: nat, subs': seq<Leaf>)
    requires BackPointers(nodes, subsOf) && r in nodes && c in subsOf && k < |subsOf[c]| && subsOf[c][k] == Some(r)
    requires forall y :: HasLeaf(subs', y) <==> y != c && HasLeaf(nodes[r].subs, y)
    ensures BackPointers(WithLeaves(nodes, r, subs'), subsOf[c := subsOf[c][k := None]])
  {
    var nodes', subsOf' := WithLeaves(nodes, r, subs'), subsOf[c := subsOf[c][k := None]];
    forall y | y in subsOf' ensures SlotsOk(nodes', subsOf'[y], y) {
      assert SlotsOk(nodes, subsOf[y], y);
      if y == c { SlotFreed(nodes, subsOf[c], c, r, k, subs'); }
    }
  }

  lemma SlotFreed(nodes: Nodes, slots: seq<Option<nat>>, c: nat, r: nat, k: nat, subs': seq<Leaf>)
    requires SlotsOk(nodes, slots, c) && r in nodes && k < |slots| && slots[k] == Some(r) && !HasLeaf(subs', c)
    ensures SlotsOk(WithLeaves(nodes, r, subs'), slots[k := None], c)
  {
    var nodes', slots' := WithLeaves(nodes, r, subs'), slots[k := None];
    forall x | x in nodes' && HasLeaf(nodes'[x].subs, c) ensures Some(x) in slots' {
      var j :| 0 <= j < |slots| && slots[j] == Some(x);
      assert slots'[j] == Some(x);
    }
  }

  // ----- one step of the tree as a whole -----

  /** The top for topics without '$' is there and does not know its parent, so that it is never pruned. */
  predicate Anchored(nodes: Nodes, at: map<Path, nat>) {
    Sub(Root, "") in at && at[Sub(Root, "")] in nodes && nodes[at[Sub(Root, "")]].parent == None
  }

  /** A walk goes down from a top along all tokens, so that the label of a top comes twice in a path. */
  predicate Doubled(p: Path) {
    p.Sub? && p.up.Sub? ==> if p.up.up.Root? then p.name == p.up.name else Doubled(p.up)
  }

  ghost predicate AllDoubled(nodes: Nodes, path: map<nat, Path>) {
    forall r | r in nodes :: r in path && Doubled(path[r])
  }

  ghost predicate Sound(nodes: Nodes, next: nat, path: map<nat, Path>, at: map<Path, nat>,
                        abs: map<(nat, Path), nat>, ret: map<Path, nat>, subsOf: map<nat, seq<Option<nat>>>) {
    && Shape(nodes, path, at) && Fresh(nodes, next) && Anchored(nodes, at) && AllDoubled(nodes, path)
    && Holds(nodes, path, at, abs)
    && BackPointers(nodes, subsOf)
    && Keeps(nodes, path, at, ret)
  }

  lemma SoundNames(nodes: Nodes, next: nat, path: map<nat, Path>, at: map<Path, nat>, abs: map<(nat, Path), nat>,
                   ret: map<Path, nat>, subsOf: map<nat, seq<Option<nat>>>)
    requires Sound(nodes, next, path, at, abs, ret, subsOf)
    ensures nodes.Keys <= path.Keys && next !in nodes
    ensures forall x | x in nodes :: path[x] in at && at[path[x]] == x
  {
  }

  /** A client is subscribed at a node just when one of the leaves there is its own. */
  lemma SubscribedHere(nodes: Nodes, next: nat, path: map<nat, Path>, at: map<Path, nat>, abs: map<(nat, Path), nat>,
                       ret: map<Path, nat>, subsOf: map<nat, seq<Option<nat>>>, r: nat, c: nat)
    requires Sound(nodes, next, path, at, abs, ret, subsOf) && r in nodes
    ensures (c, path[r]) in abs <==> exists i :: 0 <= i < |nodes[r].subs| && nodes[r].subs[i].client == c
  {
    assert LeavesOk(nodes, path, abs, r);
    if (c, path[r]) in abs {
      assert Subscribed(nodes, at, (c, path[r]));
    }
  }

  lemma SoundAdded(nodes: Nodes, next: nat, path: map<nat, Path>, at: map<Path, nat>, abs: map<(nat, Path), nat>,
                   ret: map<Path, nat>, subsOf: map<nat, seq<Option<nat>>>, r: nat, topic: string, first: bool)
    requires Sound(nodes, next, path, at, abs, ret, subsOf) && r in nodes && (r == ROOT || nodes[r].topic != "#")
    requires forall x | x in nodes[r].children && x in nodes :: nodes[x].topic != topic
    requires r in path && Doubled(Sub(path[r], topic))
    ensures Sub(path[r], topic) !in at
    ensures Sound(AddedNodes(nodes, r, topic, first, next), next + 1, path[next := Sub(path[r], topic)],
                  at[Sub(path[r], topic) := next], abs, ret, subsOf)
  {
    AddChild(nodes, path, at, r, topic, first, next);
    AddedHoldings(nodes, path, at, r, topic, first, next, abs, ret, subsOf);
  }

  lemma SoundDropped(nodes: Nodes, next: nat, path: map<nat, Path>, at: map<Path, nat>, abs: map<(nat, Path), nat>,
                     ret: map<Path, nat>, subsOf: map<nat, seq<Option<nat>>>, r: nat, k: nat)
    requires Sound(nodes, next, path, at, abs, ret, subsOf) && r in nodes && k < |nodes[r].children|
    requires var c := nodes[r].children[k];
             c in nodes && nodes[c].children == [] && nodes[c].subs == [] && nodes[c].retained == None
                 && (r != ROOT || nodes[c].parent.Some?)
    ensures nodes[r].children[k] != r
    ensures Sound(DroppedNodes(nodes, r, k), next, path, at - {path[nodes[r].children[k]]}, abs, ret, subsOf)
  {
    assert nodes[r].children[k] in nodes[r].children && Down(nodes, path, r);
    DropChild(nodes, path, at, r, k);
    DroppedHoldings(nodes, path, at, r, k, abs, ret, subsOf);
  }

  lemma SoundChanged(nodes: Nodes, next: nat, path: map<nat, Path>, at: map<Path, nat>, abs: map<(nat, Path), nat>,
                     ret: map<Path, nat>, subsOf: map<nat, seq<Option<nat>>>, r: nat, i: nat, c: nat, qos: nat)
    requires Sound(nodes, next, path, at, abs, ret, subsOf) && r in nodes && i < |nodes[r].subs|
             && nodes[r].subs[i].client == c
    ensures Sound(WithLeaves(nodes, r, nodes[r].subs[i := Leaf(c, qos)]), next, path, at, abs[(c, path[r]) := qos], ret,
                  subsOf)
  {
    LeafChanged(nodes, path, at, abs, subsOf, ret, r, i, qos);
    Refill(nodes, path, at, r, nodes[r].subs[i := Leaf(c, qos)], nodes[r].retained);
  }

  lemma SoundPut(nodes: Nodes, next: nat, path: map<nat, Path>, at: map<Path, nat>, abs: map<(nat, Path), nat>,
                 ret: map<Path, nat>, subsOf: map<nat, seq<Option<nat>>>, r: nat, c: nat, qos: nat,
                 slots': seq<Option<nat>>)
    requires Sound(nodes, next, path, at, abs, ret, subsOf) && r in nodes && c in subsOf && Full(path[r])
    requires forall i | 0 <= i < |nodes[r].subs| :: nodes[r].subs[i].client != c
    requires slots' == subsOf[c] + [Some(r)] || exists i ::
               0 <= i < |subsOf[c]| && subsOf[c][i].None? && slots' == subsOf[c][i := Some(r)]
    ensures Sound(WithLeaves(nodes, r, nodes[r].subs + [Leaf(c, qos)]), next, path, at, abs[(c, path[r]) := qos], ret,
                  subsOf[c := slots'])
  {
    LeafAdded(nodes, path, at, abs, subsOf, ret, r, c, qos, slots');
    Refill(nodes, path, at, r, nodes[r].subs + [Leaf(c, qos)], nodes[r].retained);
  }

  lemma SoundTaken(nodes: Nodes, next: nat, path: map<nat, Path>, at: map<Path, nat>, abs: map<(nat, Path), nat>,
                   ret: map<Path, nat>, subsOf: map<nat, seq<Option<nat>>>, r: nat, i: nat, c: nat, k: nat)
    requires Sound(nodes, next, path, at, abs, ret, subsOf) && r in nodes && i < |nodes[r].subs|
             && nodes[r].subs[i].client == c
    requires c in subsOf && k < |subsOf[c]| && subsOf[c][k] == Some(r)
    ensures Sound(WithLeaves(nodes, r, nodes[r].subs[..i] + nodes[r].subs[i + 1..]), next, path, at,
                  abs - {(c, path[r])}, ret,
                  subsOf[c := subsOf[c][k := None]])
  {
    LeafTaken(nodes, path, at, abs, subsOf, ret, r, i, k);
    Refill(nodes, path, at, r, nodes[r].subs[..i] + nodes[r].subs[i + 1..], nodes[r].retained);
  }

  lemma SlotOf(nodes: Nodes, next: nat, path: map<nat, Path>, at: map<Path, nat>, abs: map<(nat, Path), nat>,
               ret: map<Path, nat>, subsOf: map<nat, seq<Option<nat>>>, r: nat, c: nat)
    requires Sound(nodes, next, path, at, abs, ret, subsOf) && r in nodes && HasLeaf(nodes[r].subs, c)
    ensures c in subsOf && Some(r) in subsOf[c]
  {
    assert SlotsOk(nodes, subsOf[c], c);
  }

  lemma SlotNode(nodes: Nodes, next: nat, path: map<nat, Path>, at: map<Path, nat>, abs: map<(nat, Path), nat>,
                 ret: map<Path, nat>, subsOf: map<nat, seq<Option<nat>>>, c: nat, i: nat)
    requires Sound(nodes, next, path, at, abs, ret, subsOf) && c in subsOf && i < |subsOf[c]| && subsOf[c][i].Some?
    ensures subsOf[c][i].value in nodes
  {
    assert SlotsOk(nodes, subsOf[c], c);
  }

  lemma OneSlot(nodes: Nodes, next: nat, path: map<nat, Path>, at: map<Path, nat>, abs: map<(nat, Path), nat>,
                ret: map<Path, nat>, subsOf: map<nat, seq<Option<nat>>>, c: nat, r: nat, k: nat)
    requires Sound(nodes, next, path, at, abs, ret, subsOf) && c in subsOf && k < |subsOf[c]| && subsOf[c][k] == Some(r)
    ensures forall j | 0 <= j < |subsOf[c]| ::
              subsOf[c][k := None][j] == if subsOf[c][j] == Some(r) then None else subsOf[c][j]
  {
    assert SlotsOk(nodes, subsOf[c], c);
  }

  /** A client whose slots are all free has no subscription left. */
  lemma NoneLeft(nodes: Nodes, next: nat, path: map<nat, Path>, at: map<Path, nat>, abs: map<(nat, Path), nat>,
                 ret: map<Path, nat>, subsOf: map<nat, seq<Option<nat>>>, c: nat)
    requires Sound(nodes, next, path, at, abs, ret, subsOf) && c in subsOf
    requires forall j | 0 <= j < |subsOf[c]| :: subsOf[c][j] == None
    ensures forall k | k in abs :: k.0 != c
    ensures Sound(nodes, next, path, at, abs, ret, subsOf[c := []])
  {
    assert SlotsOk(nodes, subsOf[c], c);
    forall k | k in abs ensures k.0 != c {
      assert Subscribed(nodes, at, k);
    }
    var subsOf' := subsOf[c := []];
    forall y | y in subsOf' ensures SlotsOk(nodes, subsOf'[y], y) {
      assert SlotsOk(nodes, subsOf[y], y);
    }
  }

  /** The tokens of a valid filter have '#' at the end only. */
  predicate HashLast(labels: seq<string>) {
    forall i | 0 <= i < |labels| - 1 :: labels[i] != "#"
  }

  lemma TokensHash(filter: string)
    requires ValidLevels(Split(filter))
    ensures HashLast(Tokens(filter)) && Tokens(filter)[0] != "#"
  {
    FirstLevel(filter);
    var ts, ls := Tokens(filter), Split(filter);
    assert forall i | 0 <= i < |ls| :: ts[i + |ts| - |ls|] == ls[i];
    forall i | 0 <= i < |ts| - 1 ensures ts[i] != "#" {
      if i >= |ts| - |ls| {
        var l := ls[i - (|ts| - |ls|)];
        assert Literal(l) || l == "+";
        assert '#' in "#";
      }
    }
    if StartsWithDollar(filter) { assert ts[0][0] == '$'; }
  }

  lemma SoundRetained(nodes: Nodes, next: nat, path: map<nat, Path>, at: map<Path, nat>, abs: map<(nat, Path), nat>,
                      ret: map<Path, nat>, subsOf: map<nat, seq<Option<nat>>>, r: nat, message: Option<nat>)
    requires Sound(nodes, next, path, at, abs, ret, subsOf) && r in nodes && Full(path[r])
             && LiteralLevels(Labels(path[r]))
    ensures Sound(nodes[r := nodes[r].(retained := message)], next, path, at, abs,
                  if message.Some? then ret[path[r] := message.value] else ret - {path[r]}, subsOf)
  {
    var nodes' := nodes[r := nodes[r].(retained := message)];
    RetainedShape(nodes, path, at, r, message);
    RetainedHolds(nodes, nodes', path, at, abs, subsOf);
    RetainedKeeps(nodes, path, at, ret, r, message);
    hide Shape, Holds, BackPointers, Keeps;
  }

  lemma RetainedKeeps(nodes: Nodes, path: map<nat, Path>, at: map<Path, nat>, ret: map<Path, nat>, r: nat,
                      message: Option<nat>)
    requires Named(nodes, path, at) && Keeps(nodes, path, at, ret) && r in nodes && Full(path[r])
             && LiteralLevels(Labels(path[r]))
    ensures Keeps(nodes[r := nodes[r].(retained := message)], path, at, if message.Some?
                  then ret[path[r] := message.value] else ret - {path[r]})
  {
  }

  lemma RetainedShape(nodes: Nodes, path: map<nat, Path>, at: map<Path, nat>, r: nat, message: Option<nat>)
    requires Shape(nodes, path, at) && r in nodes
    ensures Shape(nodes[r := nodes[r].(retained := message)], path, at)
  {
    assert nodes[r := nodes[r].(retained := message)] ==
          nodes[r := nodes[r].(subs := nodes[r].subs, retained := message)];
    Refill(nodes, path, at, r, nodes[r].subs, message);
  }

  lemma RetainedHolds(nodes: Nodes, nodes': Nodes, path: map<nat, Path>, at: map<Path, nat>, abs: map<(nat, Path), nat>,
                      subsOf: map<nat, seq<Option<nat>>>)
    requires Holds(nodes, path, at, abs) && BackPointers(nodes, subsOf)
    requires nodes'.Keys == nodes.Keys && forall x | x in nodes :: nodes'[x].subs == nodes[x].subs
    ensures Holds(nodes', path, at, abs) && BackPointers(nodes', subsOf)
  {
    SlotsKept(nodes, nodes', subsOf);
    forall x | x in nodes' ensures LeavesOk(nodes', path, abs, x) {
      assert LeavesOk(nodes, path, abs, x);
    }
    forall k | k in abs ensures Subscribed(nodes', at, k) {
      assert Subscribed(nodes, at, k);
    }
  }

  lemma SoundClient(nodes: Nodes, next: nat, path: map<nat, Path>, at: map<Path, nat>, abs: map<(nat, Path), nat>,
                    ret: map<Path, nat>, subsOf: map<nat, seq<Option<nat>>>, c: nat)
    requires Sound(nodes, next, path, at, abs, ret, subsOf) && c !in subsOf
    ensures Sound(nodes, next, path, at, abs, ret, subsOf[c := []])
  {
    var subsOf' := subsOf[c := []];
    forall y | y in subsOf' ensures SlotsOk(nodes, subsOf'[y], y) {
      if y != c { assert SlotsOk(nodes, subsOf[y], y); }
    }
  }

  /** The tree of a new database: the root and two tops, neither of which knows its parent. */
  const FIRST_NODES: Nodes := map[ROOT := Node(None, "", [1, 2], [], None),
                                 1 := Node(None, "", [], [], None),
                                 2 := Node(None, "$SYS", [], [], None)]
  const FIRST_PATHS: map<nat, Path> := map[ROOT := Root, 1 := Sub(Root, ""), 2 := Sub(Root, "$SYS")]
  const FIRST_AT: map<Path, nat> := map[Root := ROOT, Sub(Root, "") := 1, Sub(Root, "$SYS") := 2]

  lemma FirstNamed()
    ensures Named(FIRST_NODES, FIRST_PATHS, FIRST_AT)
  {
    assert |"$SYS"| == 4;
  }

  lemma FirstDown(r: nat)
    requires r in FIRST_NODES
    ensures Down(FIRST_NODES, FIRST_PATHS, r) && (r != ROOT ==> Hangs(FIRST_NODES, FIRST_PATHS, FIRST_AT, r))
  {
    FirstNamed();
  }

  lemma FirstShape()
    ensures Shape(FIRST_NODES, FIRST_PATHS, FIRST_AT)
  {
    FirstNamed();
    forall r | r in FIRST_NODES ensures Down(FIRST_NODES, FIRST_PATHS, r) {
      FirstDown(r);
    }
    forall r | r in FIRST_NODES && r != ROOT ensures Hangs(FIRST_NODES, FIRST_PATHS, FIRST_AT, r) {
      FirstDown(r);
    }
  }

  lemma FirstHolds()
    ensures Holds(FIRST_NODES, FIRST_PATHS, FIRST_AT, map[]) && BackPointers(FIRST_NODES, map[])
            && Keeps(FIRST_NODES, FIRST_PATHS, FIRST_AT, map[])
  {
    forall r | r in FIRST_NODES ensures LeavesOk(FIRST_NODES, FIRST_PATHS, map[], r) {
    }
  }

  lemma FirstSound()
    ensures Sound(FIRST_NODES, 3, FIRST_PATHS, FIRST_AT, map[], map[], map[])
  {
    FirstShape();
    FirstHolds();
    hide Shape, Holds, BackPointers, Keeps;
  }
}
