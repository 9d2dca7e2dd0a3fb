/** Which nodes the walks over the subscription tree reach. */
module Search {
  import opened Wrappers
  import opened Topics
  import opened Tree

  /** One call of `_subs_process`: a node, and whether a retained message may be stored there. */
  datatype Call = Call(node: nat, setRetain: bool)

  ghost function Targets(calls: seq<Call>): set<nat> {
    set i | 0 <= i < |calls| :: calls[i].node
  }

  predicate NoRepeats(calls: seq<Call>) {
    forall i, j | 0 <= i < j < |calls| :: calls[i].node != calls[j].node
  }

  lemma Concatenated(a: seq<Call>, b: seq<Call>)
    requires NoRepeats(a) && NoRepeats(b) && Targets(a) !! Targets(b)
    ensures NoRepeats(a + b) && Targets(a + b) == Targets(a) + Targets(b)
  {
    forall i, j | 0 <= i < j < |a + b| ensures (a + b)[i].node != (a + b)[j].node {
      if i < |a| <= j {
        assert a[i].node in Targets(a) && b[j - |a|].node in Targets(b);
      }
    }
    forall x | x in Targets(a) + Targets(b) ensures x in Targets(a + b) {
      if x in Targets(a) {
        var i :| 0 <= i < |a| && a[i].node == x;
        assert (a + b)[i].node == x;
      } else {
        var i :| 0 <= i < |b| && b[i].node == x;
        assert (a + b)[|a| + i].node == x;
      }
    }
  }

  /** The offers that the leaves of a node make: to each of its clients, by the subscription at its path. */
  function OffersAt(nodes: Nodes, path: map<nat, Path>, x: nat): seq<(nat, Path)>
    requires x in nodes && x in path
  {
    seq(|nodes[x].subs|, i requires 0 <= i < |nodes[x].subs| => (nodes[x].subs[i].client, path[x]))
  }

  /** All the offers that some calls make, in their order. */
  function OffersOf(nodes: Nodes, path: map<nat, Path>, calls: seq<Call>): seq<(nat, Path)> {
    if calls == [] then []
    else
      var x := calls[|calls| - 1].node;
      OffersOf(nodes, path, calls[..|calls| - 1]) + if x in nodes && x in path then OffersAt(nodes, path, x) else []
  }

  lemma {:induction false} OffersOfCalls(nodes: Nodes, path: map<nat, Path>, calls: seq<Call>, o: (nat, Path))
    ensures o in OffersOf(nodes, path, calls) <==>
              exists x :: x in Targets(calls) && x in nodes && x in path && o in OffersAt(nodes, path, x)
  {
    hide OffersAt;
    if calls != [] {
      var n := |calls| - 1;
      OffersOfCalls(nodes, path, calls[..n], o);
      TargetsMore(calls);
      hide Targets;
    }
  }

  lemma TargetsMore(calls: seq<Call>)
    requires calls != []
    ensures Targets(calls) == Targets(calls[..|calls| - 1]) + {calls[|calls| - 1].node}
  {
    var n := |calls| - 1;
    assert calls == calls[..n] + [calls[n]];
    forall x | x in Targets(calls[..n]) ensures x in Targets(calls) {
      var i :| 0 <= i < n && calls[..n][i].node == x;
      assert calls[i].node == x;
    }
  }

  lemma Single(b: nat, sr: bool)
    ensures NoRepeats([Call(b, sr)]) && Targets([Call(b, sr)]) == {b}
  {
    assert [Call(b, sr)][0].node == b;
  }

  /** The labels on the way from `r` down to `x`; empty also when there is no such way. */
  ghost function Way(path: map<nat, Path>, x: nat, r: nat): seq<string> {
    if x in path && r in path && Suffix(path[x], path[r]).Some? then Suffix(path[x], path[r]).value else []
  }

  /** `x` lies strictly below `r`, and the labels in between match the rest of a topic. */
  ghost predicate Hit(path: map<nat, Path>, x: nat, r: nat, tokens: seq<string>) {
    Way(path, x, r) != [] && Matches(Way(path, x, r), tokens)
  }

  lemma {:induction false} SuffixInto(p: Path, q: Path)
    ensures Suffix(p, q).Some? && Suffix(p, q).value != [] ==>
              Suffix(p, Sub(q, Suffix(p, q).value[0])) == Some(Suffix(p, q).value[1..])
  {
    if p != q && p.Sub? && Suffix(p.up, q).Some? {
      var s := Suffix(p.up, q).value;
      SuffixEmpty(p.up, q);
      if s == [] {
        assert Suffix(p, q).value == [p.name];
        assert Suffix(p, p) == Some([]) && [p.name][1..] == [];
      } else {
        SuffixInto(p.up, q);
        assert (s + [p.name])[1..] == s[1..] + [p.name];
      }
    }
  }

  lemma {:induction false} SuffixExtend(q: Path, s: seq<string>)
    ensures Suffix(Extend(q, s), q) == Some(s)
    decreases |s|
  {
    if s != [] {
      SuffixExtend(Sub(q, s[0]), s[1..]);
      SuffixStep(Extend(q, s), q, s[0]);
      assert s == [s[0]] + s[1..];
    }
  }

  lemma {:induction false} SuffixEmpty(p: Path, q: Path)
    ensures Suffix(p, q) == Some([]) <==> p == q
  {
  }

  lemma {:induction false} ExtendSuffix(p: Path, q: Path)
    ensures Suffix(p, q).Some? ==> p == Extend(q, Suffix(p, q).value)
  {
    if p != q && p.Sub? && Suffix(p.up, q).Some? {
      ExtendSuffix(p.up, q);
      ExtendSnoc(q, Suffix(p.up, q).value, p.name);
    }
  }

  lemma {:induction false} ExtendSnoc(q: Path, s: seq<string>, name: string)
    ensures Extend(q, s + [name]) == Sub(Extend(q, s), name)
    decreases |s|
  {
    if s != [] {
      ExtendSnoc(Sub(q, s[0]), s[1..], name);
      assert (s + [name])[1..] == s[1..] + [name];
    } else {
      assert ([] + [name])[1..] == [];
    }
  }

  /** The first label on the way down belongs to a child, and the rest of the way starts there. */
  lemma WayThroughChild(nodes: Nodes, path: map<nat, Path>, at: map<Path, nat>, x: nat, r: nat) returns (b: nat)
    requires Shape(nodes, path, at) && x in nodes && r in nodes && Way(path, x, r) != []
    ensures b in nodes && b in nodes[r].children && nodes[b].topic == Way(path, x, r)[0]
            && path[b] == Sub(path[r], nodes[b].topic)
    ensures Way(path, x, b) == Way(path, x, r)[1..] && (Way(path, x, b) == [] ==> x == b)
  {
    var s := Way(path, x, r);
    ExtendSuffix(path[x], path[r]);
    PrefixNamed(nodes, path, at, Sub(path[r], s[0]), s[1..]);
    ChildNamed(nodes, path, at, Sub(path[r], s[0]));
    b := at[Sub(path[r], s[0])];
    SuffixInto(path[x], path[r]);
    SuffixEmpty(path[x], path[b]);
  }

  lemma {:induction false} PrefixNamed(nodes: Nodes, path: map<nat, Path>, at: map<Path, nat>, p: Path,
                                       labels: seq<string>)
    requires Shape(nodes, path, at) && Extend(p, labels) in at
    ensures p in at
    decreases |labels|
  {
    if labels != [] {
      PrefixNamed(nodes, path, at, Sub(p, labels[0]), labels[1..]);
      ChildNamed(nodes, path, at, Sub(p, labels[0]));
    }
  }

  /** What the walk does at one child, seen from one node: the three cases of the loop in `_sub_search`. */
  lemma HitThroughChild(nodes: Nodes, path: map<nat, Path>, at: map<Path, nat>, x: nat, r: nat, b: nat,
                        tokens: seq<string>)
    requires Shape(nodes, path, at) && x in nodes && r in nodes && b in nodes[r].children && b in nodes
    requires LiteralLevels(tokens)
    ensures var here := Way(path, x, r) != [] && Way(path, x, r)[0] == nodes[b].topic && Hit(path, x, r, tokens);
            if tokens != [] && (nodes[b].topic == tokens[0] || nodes[b].topic == "+")
            then here <==> Hit(path, x, b, tokens[1..]) || (x == b && tokens[1..] == [])
            else if nodes[b].topic == "#" then here <==> x == b
            else !here
  {
    var s := Way(path, x, r);
    assert Down(nodes, path, r);
    SuffixStep(path[x], path[r], nodes[b].topic);
    SuffixEmpty(path[x], path[b]);
    if s != [] && s[0] == nodes[b].topic {
      var b' := WayThroughChild(nodes, path, at, x, r);
      assert b' == b by { if b' != b { SiblingsDiffer(nodes, path, at, r, b, b'); } }
      assert tokens != [] ==> Literal(tokens[0]);
      assert '#' in "#";
      if s == ["#"] {
      } else if tokens == [] {
        if s[0] == "#" { HashIsLeaf(nodes, path, at, x, b); }
        assert !EndsInHash(s) || |s| >= 2;
      } else {
        MatchesStep(s, tokens);
        if s[0] == "#" { HashIsLeaf(nodes, path, at, x, b); }
      }
    }
    if x == b || Way(path, x, b) != [] {
      assert s == [nodes[b].topic] + Way(path, x, b);
    }
    if nodes[b].topic == "#" && Way(path, x, b) != [] { HashIsLeaf(nodes, path, at, x, b); }
  }

  lemma HashIsLeaf(nodes: Nodes, path: map<nat, Path>, at: map<Path, nat>, x: nat, b: nat)
    requires Shape(nodes, path, at) && x in nodes && b in nodes && b != ROOT && nodes[b].topic == "#"
    ensures Way(path, x, b) == []
  {
    if Way(path, x, b) != [] {
      assert Down(nodes, path, b);
      var c := WayThroughChild(nodes, path, at, x, b);
      assert false;
    }
  }

  /** The nodes a walk from `r` has reached when it has dealt with the children carrying `labels`. */
  ghost predicate HitVia(path: map<nat, Path>, x: nat, r: nat, tokens: seq<string>, labels: set<string>) {
    Hit(path, x, r, tokens) && Way(path, x, r)[0] in labels
  }

  /** Which calls one child contributes. */
  ghost predicate Contribution(nodes: Nodes, path: map<nat, Path>, r: nat, b: nat, tokens: seq<string>,
                               calls: seq<Call>)
    requires b in nodes
  {
    forall x :: x in Targets(calls) <==> x in nodes && HitVia(path, x, r, tokens, {nodes[b].topic})
  }

  lemma Extended(nodes: Nodes, path: map<nat, Path>, r: nat, b: nat, tokens: seq<string>, labels: set<string>,
                 calls: seq<Call>, more: seq<Call>)
    requires b in nodes && nodes[b].topic !in labels
    requires NoRepeats(calls) && NoRepeats(more) && Contribution(nodes, path, r, b, tokens, more)
    requires forall x :: x in Targets(calls) <==> x in nodes && HitVia(path, x, r, tokens, labels)
    ensures NoRepeats(calls + more)
    ensures forall x ::
              x in Targets(calls + more) <==> x in nodes && HitVia(path, x, r, tokens, labels + {nodes[b].topic})
  {
    Concatenated(calls, more);
  }

  /** At the end of the loop every label has been dealt with. */
  lemma AllLabels(nodes: Nodes, path: map<nat, Path>, at: map<Path, nat>, r: nat, tokens: seq<string>,
                  labels: set<string>)
    requires Shape(nodes, path, at) && r in nodes
    requires forall c | c in nodes[r].children && c in nodes :: nodes[c].topic in labels
    ensures forall x | x in nodes :: HitVia(path, x, r, tokens, labels) <==> Hit(path, x, r, tokens)
  {
    forall x | x in nodes && Hit(path, x, r, tokens) ensures Way(path, x, r)[0] in labels {
      var b := WayThroughChild(nodes, path, at, x, r);
    }
  }

  /** A retained message may be stored at the node the topic itself names, and there only. */
  ghost predicate RetainAt(path: map<nat, Path>, calls: seq<Call>, p: Path, sr: bool) {
    forall i | 0 <= i < |calls| ::
      calls[i].node in path && (calls[i].setRetain <==> sr && path[calls[i].node] == p)
  }

  lemma RetainBelow(path: map<nat, Path>, r: nat, b: nat, tokens: seq<string>, name: string, sr: bool, more: seq<Call>)
    requires r in path && b in path && path[b] == Sub(path[r], name) && tokens != [] && LiteralLevels(tokens)
    requires RetainAt(path, more, Extend(path[b], tokens[1..]), sr && name != "+")
    requires name == tokens[0] || name == "+"
    requires forall i | 0 <= i < |more| :: more[i].node in path && Suffix(path[more[i].node], path[b]).Some?
    ensures RetainAt(path, more, Extend(path[r], tokens), sr)
  {
    if name == "+" {
      assert Literal(tokens[0]) && '+' in "+";
      SuffixExtend(path[r], tokens);
      forall i | 0 <= i < |more| ensures path[more[i].node] != Extend(path[r], tokens) {
        SuffixStep(path[more[i].node], path[r], name);
      }
    }
  }

  lemma BranchContribution(nodes: Nodes, path: map<nat, Path>, at: map<Path, nat>, r: nat, b: nat, tokens: seq<string>,
                           below: seq<Call>, calls: seq<Call>, sr: bool)
    requires Shape(nodes, path, at) && r in nodes && b in nodes[r].children && b in nodes && LiteralLevels(tokens)
    requires tokens != [] && (nodes[b].topic == tokens[0] || nodes[b].topic == "+")
    requires NoRepeats(below) && forall x :: x in Targets(below) <==> x in nodes && Hit(path, x, b, tokens[1..])
    requires calls == if tokens[1..] == [] then below + [Call(b, sr)] else below
    ensures NoRepeats(calls) && Contribution(nodes, path, r, b, tokens, calls)
  {
    SuffixEmpty(path[b], path[b]);
    Single(b, sr);
    if tokens[1..] == [] { Concatenated(below, [Call(b, sr)]); }
    forall x | x in nodes ensures HitVia(path, x, r, tokens, {nodes[b].topic}) <==> x in Targets(calls) {
      HitThroughChild(nodes, path, at, x, r, b, tokens);
    }
  }

  lemma LeafContribution(nodes: Nodes, path: map<nat, Path>, at: map<Path, nat>, r: nat, b: nat, tokens: seq<string>)
    requires Shape(nodes, path, at) && r in nodes && b in nodes[r].children && b in nodes && LiteralLevels(tokens)
    requires !(tokens != [] && (nodes[b].topic == tokens[0] || nodes[b].topic == "+"))
    ensures Contribution(nodes, path, r, b, tokens, if nodes[b].topic == "#" then [Call(b, false)] else [])
    ensures nodes[b].topic == "#" ==> path[b] != Extend(path[r], tokens)
  {
    Single(b, false);
    forall x | x in nodes
        ensures HitVia(path, x, r, tokens, {nodes[b].topic}) <==>
          x in Targets(if nodes[b].topic == "#" then [Call(b, false)] else []) {
      HitThroughChild(nodes, path, at, x, r, b, tokens);
    }
    assert Down(nodes, path, r);
    LabelsExtend(path[r], tokens);
    assert Labels(path[b]) == Labels(path[r]) + [nodes[b].topic];
    assert '#' in "#" && (tokens != [] ==> Literal(tokens[|tokens| - 1]));
  }

  // ----- from the top of the tree -----

  /** The nodes that a topic is to reach, told by their paths. */
  ghost predicate Reached(p: Path, topic: string) {
    var s := Suffix(p, Sub(Root, Tokens(topic)[0]));
    s.Some? && s.value != [] && Matches(s.value, Tokens(topic))
  }

  /** Section 4.7 of MQTT 3.1.1: those are the nodes whose filter matches the topic. */
  lemma ReachedMeansMatches(filter: string, topic: string)
    requires ValidFilter(filter) && ValidTopic(topic)
    ensures Reached(FullPath(filter), topic) <==> StringMatches(filter, topic)
  {
    TokensMatch(filter, topic);
    SuffixOfFull(filter, Tokens(topic)[0]);
  }

  lemma SuffixOfFull(filter: string, top: string)
    ensures Suffix(FullPath(filter), Sub(Root, top)) == if Tokens(filter)[0] == top then Some(Tokens(filter)) else None
  {
    SuffixExtend(Sub(Root, Tokens(filter)[0]), Tokens(filter));
    FullPathLabels(filter);
    ExtendSuffix(FullPath(filter), Sub(Root, top));
    if Suffix(FullPath(filter), Sub(Root, top)).Some? {
      LabelsExtend(Sub(Root, top), Suffix(FullPath(filter), Sub(Root, top)).value);
      assert Labels(FullPath(filter))[0] == (Labels(Root) + [top])[0] == top;
    }
  }

  lemma NoTopNoHit(nodes: Nodes, path: map<nat, Path>, at: map<Path, nat>, topic: string)
    requires Shape(nodes, path, at)
    requires forall c | c in nodes[ROOT].children && c in nodes :: nodes[c].topic != Tokens(topic)[0]
    ensures forall x | x in nodes :: !Reached(path[x], topic)
  {
    forall x | x in nodes ensures !Reached(path[x], topic) {
      var top := Sub(Root, Tokens(topic)[0]);
      if Reached(path[x], topic) {
        ExtendSuffix(path[x], top);
        PrefixNamed(nodes, path, at, top, Suffix(path[x], top).value);
        ChildNamed(nodes, path, at, top);
        assert false;
      }
    }
  }

  lemma SelfMatch(levels: seq<string>)
    requires LiteralLevels(levels)
    ensures Matches(levels, levels)
  {
    assert '#' in "#";
    assert levels != [] ==> Literal(levels[|levels| - 1]);
  }

  lemma LiteralTokens(topic: string)
    requires ValidTopic(topic)
    ensures LiteralLevels(Tokens(topic)) && LiteralLevels(Labels(FullPath(topic))) && HashLast(Tokens(topic))
  {
    LiteralSplit(topic);
    FullPathLabels(topic);
    assert Literal("") && '#' in "#";
    assert forall i | 0 <= i < |Tokens(topic)| :: Tokens(topic)[i] in Tokens(topic);
  }

  /** The walk from the top reaches what the topic is to reach, the topic's own node included. */
  lemma FromTheTop(nodes: Nodes, path: map<nat, Path>, at: map<Path, nat>, top: nat, topic: string)
    requires Shape(nodes, path, at) && top in nodes && path[top] == Sub(Root, Tokens(topic)[0]) && ValidTopic(topic)
    ensures forall x | x in nodes :: Hit(path, x, top, Tokens(topic)) <==> Reached(path[x], topic)
    ensures Extend(path[top], Tokens(topic)) == FullPath(topic)
    ensures FullPath(topic) in at ==> at[FullPath(topic)] in nodes && Reached(path[at[FullPath(topic)]], topic)
  {
    LiteralTokens(topic);
    SelfMatch(Tokens(topic));
    SuffixExtend(path[top], Tokens(topic));
  }
}
