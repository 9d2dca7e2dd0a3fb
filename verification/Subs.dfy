/** The operations of the broker on its subscription tree. */
module Subs {
  import opened Sequences
  import opened Wrappers
  import opened Topics
  import opened Tree
  import opened Search
  import opened Retained

  class SubTree {
    var nodes: Nodes
    var next: nat
    /** `context->subs` of every client. */
    var subsOf: map<nat, seq<Option<nat>>>

    ghost var path: map<nat, Path>
    ghost var at: map<Path, nat>
    /** The subscriptions: the QoS of a client at the path of a filter. */
    ghost var abs: map<(nat, Path), nat>
    /** The retained message of a path. */
    ghost var ret: map<Path, nat>

    ghost predicate Valid()
      reads this
    {
      Sound(nodes, next, path, at, abs, ret, subsOf)
    }

    /** The part of `mqtt3_db_open` that sets up the two tops; neither knows its parent. */
    constructor ()
      ensures Valid() && abs == map[] && ret == map[] && subsOf == map[]
      ensures at.Keys == {Root, Sub(Root, ""), Sub(Root, "$SYS")}
    {
      nodes, path, at := FIRST_NODES, FIRST_PATHS, FIRST_AT;
      next, subsOf, abs, ret := 3, map[], map[], map[];
      new;
      FirstSound();
    }

    /** A client that connects for the first time has no subscriptions. */
    method AddClient(c: nat)
      requires Valid() && c !in subsOf
      modifies this`subsOf
      ensures Valid() && subsOf == old(subsOf)[c := []]
    {
      SoundClient(nodes, next, path, at, abs, ret, subsOf, c);
      subsOf := subsOf[c := []];
    }

    method FindChild(r: nat, topic: string) returns (k: nat)
      requires Valid() && r in nodes
      ensures k <= |nodes[r].children|
      ensures k < |nodes[r].children| ==>
                var c := nodes[r].children[k];
                c in nodes && c in nodes[r].children && nodes[c].topic == topic && path[c] == Sub(path[r], topic)
                    && r < c
      ensures k == |nodes[r].children| ==> forall c | c in nodes[r].children :: c in nodes && nodes[c].topic != topic
    {
      assert Down(nodes, path, r);
      k := 0;
      while k < |nodes[r].children|
        invariant k <= |nodes[r].children|
        invariant forall c | c in nodes[r].children[..k] :: c in nodes && nodes[c].topic != topic
      {
        var c := nodes[r].children[k];
        assert c in nodes[r].children;
        if nodes[c].topic == topic {
          return;
        }
        assert nodes[r].children[..k + 1] == nodes[r].children[..k] + [c];
        k := k + 1;
      }
      assert nodes[r].children[..k] == nodes[r].children;
    }

    /** A new, empty child; at the head of the siblings for a top, at their end elsewhere. */
    method NewChild(r: nat, topic: string, first: bool) returns (c: nat)
      requires Valid() && r in nodes && (r == ROOT || nodes[r].topic != "#")
      requires forall x | x in nodes[r].children :: x in nodes && nodes[x].topic != topic
      requires r in path && Doubled(Sub(path[r], topic))
      modifies this`nodes, this`next, this`path, this`at
      ensures Valid() && Grown()
      ensures c in nodes && c in path && nodes[c].topic == topic && path[c] == Sub(old(path[r]), topic)
      ensures at == old(at)[Sub(old(path[r]), topic) := c]
    {
      hide Sound;
      c := next;
      SoundNames(nodes, next, path, at, abs, ret, subsOf);
      SoundAdded(nodes, next, path, at, abs, ret, subsOf, r, topic, first);
      nodes, next := AddedNodes(nodes, r, topic, first, c), next + 1;
      path, at := path[c := Sub(path[r], topic)], at[Sub(path[r], topic) := c];
    }

    /** No node was freed or renamed. */
    twostate predicate Grown()
      reads this
    {
      && (forall x | x in old(nodes) ::
            x in nodes && x in old(path) && x in path && path[x] == old(path)[x]
            && nodes[x].topic == old(nodes)[x].topic)
      && (forall p | p in old(at) :: p in at && at[p] == old(at)[p])
    }

    /** No top came or went. */
    twostate predicate SameTops()
      reads this
    {
      forall t: string :: Sub(Root, t) in at <==> Sub(Root, t) in old(at)
    }

    /**
      `_sub_add`: walk down along the tokens, creating what is missing, and subscribe the client, if any, at the end.
    */
    method SubAddBelow(client: Option<nat>, qos: nat, r: nat, tokens: seq<string>) returns (again: bool)
      requires Valid() && r in nodes && HashLast(tokens)
      requires tokens != [] ==> r == ROOT || nodes[r].topic != "#"
      requires tokens != [] ==> r in path && Doubled(Sub(path[r], tokens[0])) && path[r] != Root
      requires client.Some? ==> client.value in subsOf && Full(Extend(path[r], tokens))
      modifies this
      ensures Valid() && Grown() && SameTops()
      ensures subsOf.Keys == old(subsOf.Keys) && ret == old(ret) && (client.None? ==> subsOf == old(subsOf))
      ensures Extend(old(path[r]), tokens) in at
      ensures abs == if client.Some? then old(abs)[(client.value, Extend(old(path[r]), tokens)) := qos] else old(abs)
      ensures client.Some? ==> (again <==> (client.value, Extend(old(path[r]), tokens)) in old(abs))
      decreases |tokens|
    {
      hide Sound;
      SoundNames(nodes, next, path, at, abs, ret, subsOf);
      again := false;
      if tokens == [] {
        if client.Some? {
          again := AddLeaf(client.value, qos, r);
        }
        return;
      }
      var k := FindChild(r, tokens[0]);
      assert HashLast(tokens[1..]) by {
        assert forall i | 0 <= i < |tokens| - 2 :: tokens[1..][i] == tokens[i + 1];
      }
      if k < |nodes[r].children| {
        again := SubAddBelow(client, qos, nodes[r].children[k], tokens[1..]);
      } else {
        var c := NewChild(r, tokens[0], false);
        again := SubAddBelow(client, qos, c, tokens[1..]);
      }
    }

    method AddLeaf(c: nat, qos: nat, r: nat) returns (again: bool)
      requires Valid() && r in nodes && c in subsOf && Full(path[r])
      modifies this`nodes, this`subsOf, this`abs
      ensures Valid() && Grown()
      ensures subsOf.Keys == old(subsOf.Keys)
      ensures abs == old(abs)[(c, path[r]) := qos] && (again <==> (c, path[r]) in old(abs))
    {
      hide Sound, Full;
      SoundNames(nodes, next, path, at, abs, ret, subsOf);
      var subs := nodes[r].subs;
      SubscribedHere(nodes, next, path, at, abs, ret, subsOf, r, c);
      var i := 0;
      while i < |subs|
        invariant i <= |subs| && forall j | 0 <= j < i :: subs[j].client != c
      {
        if subs[i].client == c {
          // A second subscription to the same topic only changes the QoS.
          SoundChanged(nodes, next, path, at, abs, ret, subsOf, r, i, c, qos);
          abs := abs[(c, path[r]) := qos];
          nodes := WithLeaves(nodes, r, subs[i := Leaf(c, qos)]);
          return true;
        }
        i := i + 1;
      }
      var slots := subsOf[c];
      var j := 0;
      while j < |slots| && slots[j].Some?
        invariant j <= |slots|
      {
        j := j + 1;
      }
      var slots' := if j < |slots| then slots[j := Some(r)] else slots + [Some(r)];
      SoundPut(nodes, next, path, at, abs, ret, subsOf, r, c, qos, slots');
      abs := abs[(c, path[r]) := qos];
      nodes := WithLeaves(nodes, r, subs + [Leaf(c, qos)]);
      subsOf := subsOf[c := slots'];
      return false;
    }

    /** Remove child number `k` of `r`, which holds nothing and has no children. */
    method FreeChild(r: nat, k: nat)
      requires Valid() && r in nodes && k < |nodes[r].children|
      requires var c := nodes[r].children[k];
               c in nodes && nodes[c].children == [] && nodes[c].subs == [] && nodes[c].retained == None
                   && (r != ROOT || nodes[c].parent.Some?)
      modifies this`nodes, this`at
      ensures Valid()
      ensures nodes == DroppedNodes(old(nodes), r, k) && r in nodes
    {
      var c := nodes[r].children[k];
      SoundDropped(nodes, next, path, at, abs, ret, subsOf, r, k);
      at := at - {path[c]};
      nodes := DroppedNodes(nodes, r, k);
    }

    /** Unlink the leaf of `c` at `r`, if there is one, and clear the client's slot. */
    method TakeLeaf(c: nat, r: nat)
      requires Valid() && r in nodes && c in subsOf
      modifies this`nodes, this`subsOf, this`abs
      ensures Valid()
      ensures subsOf.Keys == old(subsOf.Keys) && abs == old(abs) - {(c, path[r])}
      ensures r in nodes && nodes == old(nodes)[r := old(nodes)[r].(subs := nodes[r].subs)]
      ensures |subsOf[c]| == |old(subsOf)[c]|
      ensures forall j | 0 <= j < |subsOf[c]| ::
                subsOf[c][j] == if old(subsOf)[c][j] == Some(r) then None else old(subsOf)[c][j]
    {
      hide Sound, HasLeaf;
      SoundNames(nodes, next, path, at, abs, ret, subsOf);
      var subs := nodes[r].subs;
      var i := 0;
      while i < |subs| && subs[i].client != c
        invariant i <= |subs| && forall j | 0 <= j < i :: subs[j].client != c
      {
        i := i + 1;
      }
      LeafAt(subs, i, c);
      if i == |subs| {
        NotSubscribed(nodes, next, path, at, abs, ret, subsOf, r, c);
        return;
      }
      SlotOf(nodes, next, path, at, abs, ret, subsOf, r, c);
      var slots := subsOf[c];
      var k := 0;
      while slots[k] != Some(r)
        invariant k <= |slots| && Some(r) in slots[k..]
        decreases |slots| - k
      {
        k := k + 1;
      }
      OneSlot(nodes, next, path, at, abs, ret, subsOf, c, r, k);
      SoundTaken(nodes, next, path, at, abs, ret, subsOf, r, i, c, k);
      abs := abs - {(c, path[r])};
      nodes := WithLeaves(nodes, r, subs[..i] + subs[i + 1..]);
      subsOf := subsOf[c := slots[k := None]];
    }

    /** `_sub_remove`: walk down along the tokens, remove the leaf at the end, and prune on the way back. */
    method SubRemoveBelow(c: nat, r: nat, tokens: seq<string>)
      requires Valid() && r in nodes && r != ROOT && c in subsOf
      modifies this`nodes, this`subsOf, this`abs, this`at
      ensures Valid() && r in nodes
      ensures subsOf.Keys == old(subsOf.Keys)
      ensures abs == old(abs) - {(c, Extend(path[r], tokens))}
      ensures SameOutside(old(nodes), nodes, path, r)
      ensures forall x | x in nodes :: x in old(nodes)
      decreases |tokens|, 1
    {
      SoundNames(nodes, next, path, at, abs, ret, subsOf);
      hide Sound, SameOutside, HasLeaf;
      if tokens == [] {
        TakeLeaf(c, r);
        OutsideHere(old(nodes), nodes, path, r);
        return;
      }
      var k := FindChild(r, tokens[0]);
      if k < |nodes[r].children| {
        RemoveFromChild(c, r, k, tokens);
      } else {
        NothingThere(nodes, path, at, abs, r, c, tokens);
        OutsideHere(nodes, nodes, path, r);
      }
    }

    /** The walk goes on below child number `k`, which is freed if nothing is left there. */
    method RemoveFromChild(c: nat, r: nat, k: nat, tokens: seq<string>)
      requires Valid() && r in nodes && r != ROOT && c in subsOf && tokens != [] && k < |nodes[r].children|
      requires nodes[r].children[k] in nodes && nodes[nodes[r].children[k]].topic == tokens[0]
      modifies this`nodes, this`subsOf, this`abs, this`at
      ensures Valid() && r in nodes && r in path
      ensures subsOf.Keys == old(subsOf.Keys)
      ensures abs == old(abs) - {(c, Extend(path[r], tokens))}
      ensures SameOutside(old(nodes), nodes, path, r)
      ensures forall x | x in nodes :: x in old(nodes)
      decreases |tokens|, 0
    {
      var b := nodes[r].children[k];
      ChildPath(r, k);
      hide Sound, SameOutside;
      SubRemoveBelow(c, b, tokens[1..]);
      OutsideChild(old(nodes), nodes, path, r, b, tokens[0]);
      if nodes[b].children == [] && nodes[b].subs == [] && nodes[b].retained == None {
        FreeChild(r, k);
      }
    }

    lemma ChildPath(r: nat, k: nat)
      requires Valid() && r in nodes && k < |nodes[r].children|
      ensures var b := nodes[r].children[k];
              r in path && b in nodes && b in path && b != ROOT && path[b] == Sub(path[r], nodes[b].topic)
    {
      assert Down(nodes, path, r);
      assert nodes[r].children[k] in nodes[r].children;
    }

    /** `mqtt3_sub_add`: look for the top the filter belongs to, create it if need be, and subscribe below it. */
    method SubAdd(client: nat, filter: string, qos: nat) returns (again: bool)
      requires Valid() && client in subsOf && ValidFilter(filter)
      modifies this
      ensures Valid() && Grown()
      ensures abs == old(abs)[(client, FullPath(filter)) := qos] && (again <==> (client, FullPath(filter)) in old(abs))
      ensures ret == old(ret) && subsOf.Keys == old(subsOf.Keys)
      ensures forall t: string :: Sub(Root, t) in at <==> Sub(Root, t) in old(at) || t == Tokens(filter)[0]
    {
      var tokens := Tokenise(filter);
      FullPathIsFull(filter);
      TokensHash(filter);
      var k := FindChild(ROOT, tokens[0]);
      var top;
      if k < |nodes[ROOT].children| {
        top := nodes[ROOT].children[k];
      } else {
        top := NewChild(ROOT, tokens[0], true);
      }
      again := SubAddBelow(Some(client), qos, top, tokens);
    }

    /** `mqtt3_sub_remove`. */
    method SubRemove(client: nat, filter: string)
      requires Valid() && client in subsOf
      modifies this
      ensures Valid()
      ensures abs == old(abs) - {(client, FullPath(filter))}
      ensures ret == old(ret) && subsOf.Keys == old(subsOf.Keys)
    {
      var tokens := Tokenise(filter);
      var k := FindChild(ROOT, tokens[0]);
      if k < |nodes[ROOT].children| {
        SubRemoveBelow(client, nodes[ROOT].children[k], tokens);
      } else {
        NothingThere(nodes, path, at, abs, ROOT, client, [tokens[0]] + tokens);
      }
    }

    /**
      `tmp_remove_subs`: free a node without leaves and children, and report its parent if that is to be freed as well.
    */
    method RemoveSubs(sub: nat) returns (above: Option<nat>)
      requires Valid() && sub in nodes && nodes[sub].retained == None
      modifies this`nodes, this`at
      ensures Valid()
      ensures if Freeable(old(nodes), sub)
              then sub !in nodes && FreedBelow(old(nodes), nodes, old(nodes)[sub].parent.value, sub)
                   && above == if Freeable(nodes, old(nodes)[sub].parent.value) then old(nodes)[sub].parent else None
              else nodes == old(nodes) && above == None
      ensures above.Some? ==> above.value in nodes && above.value < sub
    {
      if nodes[sub].parent == None || nodes[sub].children != [] || nodes[sub].subs != [] {
        return None;
      }
      var parent := nodes[sub].parent.value;
      assert Hangs(nodes, path, at, sub) && Down(nodes, path, parent);
      var k := 0;
      while nodes[parent].children[k] != sub
        invariant k <= |nodes[parent].children| && sub in nodes[parent].children[k..]
        decreases |nodes[parent].children| - k
      {
        k := k + 1;
      }
      FreeChild(parent, k);
      if nodes[parent].subs == [] && nodes[parent].children == [] && nodes[parent].retained == None
          && nodes[parent].parent.Some? {
        return Some(parent);
      }
      return None;
    }

    /**
      Free a node that has become empty, then the nodes above it for as long as they are empty too: no node is left to
      be freed that was not one before.
    */
    method Prune(sub: nat)
      requires Valid() && sub in nodes && nodes[sub].retained == None
      modifies this`nodes, this`at
      ensures Valid()
      ensures Freeable(old(nodes), sub) ==> sub !in nodes
      ensures forall x | Freeable(nodes, x) :: Freeable(old(nodes), x) && x != sub
      ensures forall x | x in nodes :: x in old(nodes) && SameNode(old(nodes)[x], nodes[x])
    {
      hide Sound;
      var hier := Some(sub);
      while hier.Some?
        invariant Valid()
        invariant hier.Some? ==> hier.value in nodes && nodes[hier.value].retained == None
        invariant hier == Some(sub) ==> nodes == old(nodes)
        invariant hier != Some(sub) ==> Freeable(old(nodes), sub) ==> sub !in nodes
        invariant forall x | Freeable(nodes, x) :: hier == Some(x) || (Freeable(old(nodes), x) && x != sub)
        invariant forall x | x in nodes :: x in old(nodes) && SameNode(old(nodes)[x], nodes[x])
        decreases if hier.Some? then hier.value + 1 else 0
      {
        hier := RemoveSubs(hier.value);
      }
    }

    /** Deal with one slot of a client whose session ends. */
    method CleanSlot(c: nat, i: nat) returns (ghost p: Option<Path>)
      requires Valid() && c in subsOf && i < |subsOf[c]|
      modifies this
      ensures Valid()
      ensures subsOf.Keys == old(subsOf.Keys) && ret == old(ret)
      ensures |subsOf[c]| == |old(subsOf)[c]| && subsOf[c][i] == None
      ensures forall j | 0 <= j < |subsOf[c]| && old(subsOf)[c][j] == None :: subsOf[c][j] == None
      ensures abs == if p.Some? then old(abs) - {(c, p.value)} else old(abs)
    {
      hide Sound;
      if subsOf[c][i].None? {
        return None;
      }
      var r := subsOf[c][i].value;
      SoundNames(nodes, next, path, at, abs, ret, subsOf);
      SlotNode(nodes, next, path, at, abs, ret, subsOf, c, i);
      p := Some(path[r]);
      TakeLeaf(c, r);
      if nodes[r].subs == [] && nodes[r].children == [] && nodes[r].retained == None && nodes[r].parent.Some? {
        Prune(r);
      }
    }

    /** `mqtt3_subs_clean_session`: unlink every leaf the client's slots name, pruning what becomes empty. */
    method CleanSession(c: nat)
      requires Valid() && c in subsOf
      modifies this
      ensures Valid()
      ensures forall key :: key in abs <==> key in old(abs) && key.0 != c
      ensures forall key | key in abs :: abs[key] == old(abs)[key]
      ensures subsOf.Keys == old(subsOf.Keys) && subsOf[c] == [] && ret == old(ret)
      ensures old(subsOf)[c] == [] ==> at == old(at)
    {
      var i := 0;
      hide Sound;
      ghost var gone: set<(nat, Path)> := {};
      while i < |subsOf[c]|
        invariant Valid() && c in subsOf && i <= |subsOf[c]| && subsOf.Keys == old(subsOf.Keys) && ret == old(ret)
        invariant forall j | 0 <= j < i :: subsOf[c][j] == None
        invariant abs == old(abs) - gone && forall key | key in gone :: key.0 == c
        invariant |subsOf[c]| == |old(subsOf)[c]| && (i == 0 ==> subsOf == old(subsOf) && at == old(at))
        decreases |subsOf[c]| - i
      {
        var p := CleanSlot(c, i);
        gone := gone + (if p.Some? then {(c, p.value)} else {});
        i := i + 1;
      }
      NoneLeft(nodes, next, path, at, abs, ret, subsOf, c);
      subsOf := subsOf[c := []];
    }

    /**
      `_sub_search`, as the list of calls of `_subs_process` that it makes, in their order. `_subs_process`
      does not change what the walk reads, so that carrying the calls out afterwards is the same.
    */
    method Search(r: nat, tokens: seq<string>, setRetain: bool) returns (calls: seq<Call>)
      requires Valid() && r in nodes && LiteralLevels(tokens)
      ensures NoRepeats(calls)
      ensures forall x :: x in Targets(calls) <==> x in nodes && Hit(path, x, r, tokens)
      ensures RetainAt(path, calls, Extend(path[r], tokens), setRetain)
      decreases |tokens|
    {
      calls := [];
      assert Down(nodes, path, r);
      ghost var labels: set<string> := {};
      var k := 0;
      while k < |nodes[r].children|
        invariant k <= |nodes[r].children|
        invariant forall c | c in nodes ::
                    nodes[c].topic in labels && c in nodes[r].children <==> c in nodes[r].children[..k]
        invariant NoRepeats(calls) && RetainAt(path, calls, Extend(path[r], tokens), setRetain)
        invariant forall x :: x in Targets(calls) <==> x in nodes && HitVia(path, x, r, tokens, labels)
      {
        var b := nodes[r].children[k];
        var more := SearchChild(r, b, tokens, setRetain);
        Extended(nodes, path, r, b, tokens, labels, calls, more);
        calls := calls + more;
        labels := labels + {nodes[b].topic};
        k := k + 1;
      }
      AllLabels(nodes, path, at, r, tokens, labels);
    }

    /** The body of the loop: descend into the child, process it, or do neither. */
    method SearchChild(r: nat, b: nat, tokens: seq<string>, setRetain: bool) returns (calls: seq<Call>)
      requires Valid() && r in nodes && b in nodes[r].children && LiteralLevels(tokens)
      ensures b in nodes
      ensures NoRepeats(calls) && Contribution(nodes, path, r, b, tokens, calls)
      ensures RetainAt(path, calls, Extend(path[r], tokens), setRetain)
      decreases |tokens|, 0
    {
      calls := [];
      assert Down(nodes, path, r);
      var branch := nodes[b];
      if tokens != [] && (branch.topic == tokens[0] || branch.topic == "+") {
        var sr := setRetain;
        if branch.topic == "+" {
          sr := false;
        }
        var below := Search(b, tokens[1..], sr);
        calls := below;
        if tokens[1..] == [] {
          calls := calls + [Call(b, sr)];
        }
        BranchContribution(nodes, path, at, r, b, tokens, below, calls, sr);
        HitsAreBelow(path, b, tokens[1..], below);
        RetainBelow(path, r, b, tokens, branch.topic, setRetain, calls);
      } else {
        LeafContribution(nodes, path, at, r, b, tokens);
        assert Down(nodes, path, b);
        if branch.topic == "#" && branch.children == [] {
          calls := [Call(b, false)];
        }
      }
    }

    /**
      The walk of `mqtt3_db_messages_queue`: for a retained message make sure that the node of the topic
      exists, then find the nodes to process.
    */
    method TopicCalls(topic: string, retain: bool) returns (calls: seq<Call>)
      requires Valid() && ValidTopic(topic)
      modifies this
      ensures Valid() && Grown() && SameTops() && abs == old(abs) && ret == old(ret) && subsOf == old(subsOf)
      ensures NoRepeats(calls)
      ensures forall x :: x in Targets(calls) <==> x in nodes && Reached(path[x], topic)
      ensures RetainAt(path, calls, FullPath(topic), true)
      ensures retain && Sub(Root, Tokens(topic)[0]) in old(at) ==>
                FullPath(topic) in at && at[FullPath(topic)] in Targets(calls)
                && at[FullPath(topic)] in path && path[at[FullPath(topic)]] == FullPath(topic)
      ensures Sub(Root, Tokens(topic)[0]) !in old(at) ==> calls == []
    {
      var tokens := Tokenise(topic);
      LiteralTokens(topic);
      var k := FindChild(ROOT, tokens[0]);
      if k < |nodes[ROOT].children| {
        var top := nodes[ROOT].children[k];
        assert '#' in "#";
        if retain {
          var _ := SubAddBelow(None, 0, top, tokens);
        }
        FromTheTop(nodes, path, at, top, topic);
        calls := Search(top, tokens, true);
      } else {
        calls := [];
        NoTopNoHit(nodes, path, at, topic);
        if Sub(Root, tokens[0]) in at { ChildNamed(nodes, path, at, Sub(Root, tokens[0])); }
      }
    }

    /** Every subscription whose filter matches is reached, and no other one: section 4.7. */
    lemma CallsAreMatches(topic: string, calls: seq<Call>, client: nat, filter: string)
      requires Valid() && ValidTopic(topic) && ValidFilter(filter)
      requires forall x :: x in Targets(calls) <==> x in nodes && Reached(path[x], topic)
      ensures (client, FullPath(filter)) in abs && StringMatches(filter, topic) <==>
              FullPath(filter) in at && at[FullPath(filter)] in nodes && at[FullPath(filter)] in Targets(calls)
              && Leaf(client, QosOf(client, filter)) in nodes[at[FullPath(filter)]].subs
    {
      var p := FullPath(filter);
      ReachedMeansMatches(filter, topic);
      if (client, p) in abs {
        assert Subscribed(nodes, at, (client, p)) && LeavesOk(nodes, path, abs, at[p]);
        var i :| 0 <= i < |nodes[at[p]].subs| && nodes[at[p]].subs[i].client == client;
        assert nodes[at[p]].subs[i] == Leaf(client, abs[(client, p)]);
      }
      if p in at && Leaf(client, QosOf(client, filter)) in nodes[at[p]].subs {
        assert LeavesOk(nodes, path, abs, at[p]);
      }
    }

    /** An offer at a node is a subscription to its filter. */
    lemma OfferHere(x: nat, o: (nat, Path))
      requires Valid() && x in nodes
      ensures x in path && (o in OffersAt(nodes, path, x) <==> o in abs && o.1 == path[x])
      ensures forall i | 0 <= i < |nodes[x].subs| ::
                OffersAt(nodes, path, x)[i] in abs && abs[OffersAt(nodes, path, x)[i]] == nodes[x].subs[i].qos
      ensures forall i, j | 0 <= i < j < |nodes[x].subs| :: OffersAt(nodes, path, x)[i] != OffersAt(nodes, path, x)[j]
    {
      hide Full, Labels, LiteralLevels;
      assert LeavesOk(nodes, path, abs, x);
      if o in abs && o.1 == path[x] {
        assert Subscribed(nodes, at, o);
        var i :| 0 <= i < |nodes[x].subs| && nodes[x].subs[i].client == o.0;
        assert OffersAt(nodes, path, x)[i] == o;
      }
    }

    /** The offers of a walk are the subscriptions whose path the topic reaches. */
    lemma OffersAreSubscriptions(topic: string, calls: seq<Call>, o: (nat, Path))
      requires Valid()
      requires forall x :: x in Targets(calls) <==> x in nodes && Reached(path[x], topic)
      ensures o in OffersOf(nodes, path, calls) <==> o in abs && Reached(o.1, topic)
    {
      SoundNames(nodes, next, path, at, abs, ret, subsOf);
      OffersOfCalls(nodes, path, calls, o);
      hide OffersAt, OffersOf, Reached;
      forall x | x in nodes ensures o in OffersAt(nodes, path, x) <==> o in abs && o.1 == path[x] {
        OfferHere(x, o);
      }
      if o in abs && Reached(o.1, topic) {
        assert Subscribed(nodes, at, o);
      }
    }

    /** Each of them is made once. */
    lemma {:induction false} OffersOnce(calls: seq<Call>)
      requires Valid() && NoRepeats(calls) && Targets(calls) <= nodes.Keys
      ensures forall i, j | 0 <= i < j < |OffersOf(nodes, path, calls)| ::
                OffersOf(nodes, path, calls)[i] != OffersOf(nodes, path, calls)[j]
    {
      hide Sound;
      if calls != [] {
        var n := |calls| - 1;
        var x := calls[n].node;
        TargetsMore(calls);
        OffersOnce(calls[..n]);
        SoundNames(nodes, next, path, at, abs, ret, subsOf);
        forall o | o in OffersAt(nodes, path, x) ensures o !in OffersOf(nodes, path, calls[..n]) {
          OtherOffers(calls[..n], x, o);
        }
        OfferHere(x, (0, Root));
        var front: seq<(nat, Path)>, here: seq<(nat, Path)> := OffersOf(nodes, path, calls[..n]),
            OffersAt(nodes, path, x);
        var both: seq<(nat, Path)> := front + here;
        assert OffersOf(nodes, path, calls) == front + here;
        forall i, j | 0 <= i < j < |both| ensures both[i] != both[j] {
          if i < |front| <= j {
            assert front[i] in front && here[j - |front|] in here;
          }
        }
      }
    }

    lemma OtherOffers(calls: seq<Call>, x: nat, o: (nat, Path))
      requires Valid() && x in nodes && Targets(calls) <= nodes.Keys && o in OffersAt(nodes, path, x)
      requires forall i | 0 <= i < |calls| :: calls[i].node != x
      ensures o !in OffersOf(nodes, path, calls)
    {
      hide Sound;
      SoundNames(nodes, next, path, at, abs, ret, subsOf);
      OffersOfCalls(nodes, path, calls, o);
      OfferHere(x, o);
      forall y | y in Targets(calls) ensures o !in OffersAt(nodes, path, y) {
        OfferHere(y, o);
      }
    }

    /** The clients of the leaves are the clients of the tree. */
    lemma LeafClients(r: nat)
      requires Valid() && r in nodes
      ensures forall i | 0 <= i < |nodes[r].subs| :: nodes[r].subs[i].client in subsOf
    {
      forall i | 0 <= i < |nodes[r].subs| ensures nodes[r].subs[i].client in subsOf {
        assert HasLeaf(nodes[r].subs, nodes[r].subs[i].client);
      }
    }

    ghost function QosOf(client: nat, filter: string): nat
      reads this
    {
      if (client, FullPath(filter)) in abs then abs[(client, FullPath(filter))] else 0
    }

    lemma RetainedAt(r: nat)
      requires Valid() && r in nodes
      ensures r in path && (nodes[r].retained.Some? <==> path[r] in ret)
      ensures nodes[r].retained.Some? ==> ret[path[r]] == nodes[r].retained.value
    {
    }

    /** `hier->retained = stored` or `= NULL`. */
    method SetRetained(r: nat, message: Option<nat>)
      requires Valid() && r in nodes && Full(path[r]) && LiteralLevels(Labels(path[r]))
      modifies this`nodes, this`ret
      ensures Valid() && Grown()
      ensures nodes == old(nodes)[r := old(nodes)[r].(retained := message)]
      ensures ret == if message.Some? then old(ret)[path[r] := message.value] else old(ret) - {path[r]}
    {
      hide Sound, Full, LiteralLevels, Labels;
      SoundNames(nodes, next, path, at, abs, ret, subsOf);
      SoundRetained(nodes, next, path, at, abs, ret, subsOf, r, message);
      ret := if message.Some? then ret[path[r] := message.value] else ret - {path[r]};
      nodes := nodes[r := nodes[r].(retained := message)];
    }

    /** `_retain_search`, as the nodes whose retained messages it delivers; `flag` stands for the result -1. */
    method RetainSearch(r: nat, tokens: seq<string>, level: nat) returns (found: seq<nat>, flag: bool)
      requires Valid() && r in nodes && tokens != [] && HashLast(tokens)
      ensures flag <==> tokens == ["#"] && nodes[r].children != []
      ensures NoDups(found)
      ensures forall x :: x in found <==> Found(nodes, path, at, x, r, tokens, level)
      decreases |tokens|, next - r, 1
    {
      found, flag := [], false;
      assert Down(nodes, path, r);
      ghost var labels: set<string> := {};
      var k := 0;
      while k < |nodes[r].children|
        invariant k <= |nodes[r].children|
        invariant flag <==> tokens == ["#"] && k > 0
        invariant forall c | c in nodes ::
                    nodes[c].topic in labels && c in nodes[r].children <==> c in nodes[r].children[..k]
        invariant NoDups(found) && forall x :: x in found <==> FoundVia(nodes, path, at, x, r, tokens, level, labels)
      {
        var b := nodes[r].children[k];
        if tokens[0] == "#" && |tokens| == 1 {
          flag := true;
        }
        var more := RetainSearchChild(r, k, tokens, level);
        FoundExtended(nodes, path, at, r, b, tokens, level, labels, found, more);
        found := found + more;
        labels := labels + {nodes[b].topic};
        k := k + 1;
      }
      AllFound(nodes, path, at, r, tokens, level, labels);
    }

    /** The body of the loop for child number `k`. */
    method RetainSearchChild(r: nat, k: nat, tokens: seq<string>, level: nat) returns (found: seq<nat>)
      requires Valid() && r in nodes && k < |nodes[r].children| && tokens != [] && HashLast(tokens)
      ensures nodes[r].children[k] in nodes && NoDups(found)
      ensures forall x ::
                x in found <==> FoundVia(nodes, path, at, x, r, tokens, level, {nodes[nodes[r].children[k]].topic})
      decreases |tokens|, next - r, 0
    {
      var b := nodes[r].children[k];
      assert b in nodes[r].children && Down(nodes, path, r);
      var branch := nodes[b];
      found := [];
      if tokens[0] == "#" && |tokens| == 1 {
        if branch.retained.Some? {
          found := [b];
        }
        ghost var self := found;
        var below := [];
        if branch.children != [] {
          var flag;
          below, flag := RetainSearch(b, tokens, level + 1);
          found := found + below;
        }
        assert found == self + below && tokens == ["#"];
        HashChild(nodes, path, at, ret, r, b, level, below, found);
      } else if branch.topic != "+" && (branch.topic == tokens[0] || tokens[0] == "+") {
        if |tokens| > 1 {
          assert HashLast(tokens[1..]) by {
            assert forall i | 0 <= i < |tokens| - 2 :: tokens[1..][i] == tokens[i + 1];
          }
          var below, flag := RetainSearch(b, tokens[1..], level + 1);
          found := below;
          if flag || (k + 1 == |nodes[r].children| && tokens[1] == "#" && level > 0) {
            if branch.retained.Some? {
              found := found + [b];
            }
          }
          LastChild(nodes, path, at, r, k);
          assert tokens[1] == "#" <==> tokens[1..] == ["#"];
          assert below + [] == below;
          InnerChild(nodes, path, at, ret, r, b, tokens, level, below, found);
        } else {
          if branch.retained.Some? {
            found := [b];
          }
          OtherChild(nodes, path, at, ret, r, b, tokens, level);
        }
      } else {
        OtherChild(nodes, path, at, ret, r, b, tokens, level);
      }
    }

    /** The retained messages of exactly the topics that `filter` asks for have been found, each once. */
    ghost predicate AllAsked(filter: string, found: seq<nat>)
      reads this
    {
      forall topic | ValidTopic(topic) && FullPath(topic) in ret ::
           && FullPath(topic) in at && at[FullPath(topic)] in nodes
           && (at[FullPath(topic)] in found <==> Asked(nodes, path, at, at[FullPath(topic)], filter, topic))
    }

    /** `mqtt3_retain_queue`. */
    method RetainQueue(filter: string) returns (found: seq<nat>)
      requires Valid() && ValidFilter(filter)
      ensures NoDups(found) && forall i | 0 <= i < |found| :: found[i] in nodes && nodes[found[i]].retained.Some?
      ensures AllAsked(filter, found)
    {
      var tokens := Tokenise(filter);
      TokensHash(filter);
      found := [];
      var k := FindChild(ROOT, tokens[0]);
      if k < |nodes[ROOT].children| {
        var top := nodes[ROOT].children[k];
        var flag;
        found, flag := RetainSearch(top, tokens, 0);
        forall i | 0 <= i < |found| ensures found[i] in nodes && nodes[found[i]].retained.Some? {
          assert found[i] in found;
        }
        forall topic | ValidTopic(topic) && FullPath(topic) in ret
          ensures FullPath(topic) in at && at[FullPath(topic)] in nodes
          ensures at[FullPath(topic)] in found <==> Asked(nodes, path, at, at[FullPath(topic)], filter, topic)
        {
          FoundFromTheTop(nodes, path, at, ret, top, filter, topic);
        }
      } else {
        forall topic | ValidTopic(topic) && FullPath(topic) in ret
          ensures FullPath(topic) in at && at[FullPath(topic)] in nodes && !StringMatches(filter, topic)
        {
          NoTopNoHit(nodes, path, at, filter);
          TokensMatch(filter, topic);
          TopNamed(nodes, path, at, topic);
        }
      }
    }
  }

  /** Nothing hangs on the node, and it is not a top. */
  predicate Freeable(nodes: Nodes, x: nat) {
    x in nodes && nodes[x].subs == [] && nodes[x].children == [] && nodes[x].retained == None && nodes[x].parent.Some?
  }

  /** A node that has kept all but some of its children. */
  predicate SameNode(n: Node, n': Node) {
    n' == n.(children := n'.children)
  }

  /** The child `sub` of `parent` has been freed, and nothing else has changed. */
  ghost predicate FreedBelow(nodes: Nodes, nodes': Nodes, parent: nat, sub: nat) {
    parent in nodes && exists k ::
          0 <= k < |nodes[parent].children| && nodes[parent].children[k] == sub
          && nodes' == DroppedNodes(nodes, parent, k)
  }

  ghost predicate Below(path: map<nat, Path>, x: nat, r: nat) {
    x in path && r in path && Suffix(path[x], path[r]).Some?
  }

  /** Only the node `r` and what is below it may have changed. */
  ghost predicate SameOutside(nodes: Nodes, nodes': Nodes, path: map<nat, Path>, r: nat) {
    forall x | x in nodes && !Below(path, x, r) :: x in nodes' && nodes'[x] == nodes[x]
  }

  lemma OutsideHere(nodes: Nodes, nodes': Nodes, path: map<nat, Path>, r: nat)
    requires r in path && forall x | x in nodes && x != r :: x in nodes' && nodes'[x] == nodes[x]
    ensures SameOutside(nodes, nodes', path, r)
  {
    assert Below(path, r, r);
  }

  lemma OutsideChild(nodes: Nodes, nodes': Nodes, path: map<nat, Path>, r: nat, b: nat, name: string)
    requires SameOutside(nodes, nodes', path, b) && r in path && b in path && path[b] == Sub(path[r], name)
    ensures r in nodes ==> r in nodes' && nodes'[r] == nodes[r]
    ensures SameOutside(nodes, nodes', path, r)
    ensures forall k | r in nodes' && 0 <= k < |nodes'[r].children| && nodes'[r].children[k] == b ::
              SameOutside(nodes, DroppedNodes(nodes', r, k), path, r)
  {
    forall x | Below(path, x, b) ensures Below(path, x, r) && x != r {
      SuffixStep(path[x], path[r], name);
      SuffixDepth(path[x], path[b]);
    }
    assert Below(path, b, b) && Below(path, r, r);
  }

  lemma LeafAt(subs: seq<Leaf>, i: nat, c: nat)
    requires i <= |subs| && (i < |subs| ==> subs[i].client == c) && forall j | 0 <= j < i :: subs[j].client != c
    ensures HasLeaf(subs, c) <==> i < |subs|
  {
  }

  lemma NotSubscribed(nodes: Nodes, next: nat, path: map<nat, Path>, at: map<Path, nat>, abs: map<(nat, Path), nat>,
                      ret: map<Path, nat>, subsOf: map<nat, seq<Option<nat>>>, r: nat, c: nat)
    requires Sound(nodes, next, path, at, abs, ret, subsOf) && r in nodes && c in subsOf && !HasLeaf(nodes[r].subs, c)
    ensures (c, path[r]) !in abs && abs - {(c, path[r])} == abs
    ensures forall j | 0 <= j < |subsOf[c]| :: subsOf[c][j] != Some(r)
  {
    assert (c, path[r]) in abs ==> Subscribed(nodes, at, (c, path[r]));
    assert SlotsOk(nodes, subsOf[c], c);
  }

  lemma NothingThere(nodes: Nodes, path: map<nat, Path>, at: map<Path, nat>, abs: map<(nat, Path), nat>, r: nat, c: nat,
                     tokens: seq<string>)
    requires Shape(nodes, path, at) && Holds(nodes, path, at, abs) && r in nodes && tokens != []
    requires forall x | x in nodes[r].children && x in nodes :: nodes[x].topic != tokens[0]
    ensures (c, Extend(path[r], tokens)) !in abs && abs - {(c, Extend(path[r], tokens))} == abs
  {
    if (c, Extend(path[r], tokens)) in abs {
      assert Subscribed(nodes, at, (c, Extend(path[r], tokens)));
      PrefixNamed(nodes, path, at, Sub(path[r], tokens[0]), tokens[1..]);
      ChildNamed(nodes, path, at, Sub(path[r], tokens[0]));
      assert false;
    }
  }

  lemma HitsAreBelow(path: map<nat, Path>, b: nat, tokens: seq<string>, calls: seq<Call>)
    requires b in path && forall x | x in Targets(calls) :: Hit(path, x, b, tokens)
    ensures forall i | 0 <= i < |calls| :: calls[i].node in path && Suffix(path[calls[i].node], path[b]).Some?
  {
    forall i | 0 <= i < |calls| ensures calls[i].node in path && Suffix(path[calls[i].node], path[b]).Some? {
      assert calls[i].node in Targets(calls);
    }
  }

  lemma TopNamed(nodes: Nodes, path: map<nat, Path>, at: map<Path, nat>, topic: string)
    requires Shape(nodes, path, at) && FullPath(topic) in at
    ensures exists c :: c in nodes[ROOT].children && c in nodes && nodes[c].topic == Tokens(topic)[0]
  {
    Search.PrefixNamed(nodes, path, at, Sub(Root, Tokens(topic)[0]), Tokens(topic));
    ChildNamed(nodes, path, at, Sub(Root, Tokens(topic)[0]));
  }
}
