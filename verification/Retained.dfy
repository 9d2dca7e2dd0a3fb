/** Which retained messages a new subscription is sent. */
module Retained {
  import opened Sequences
  import opened Wrappers
  import opened Topics
  import opened Tree
  import opened Search

  ghost predicate LastSibling(nodes: Nodes, path: map<nat, Path>, at: map<Path, nat>, x: nat) {
    && x in path && path[x].Sub? && path[x].up in at && at[path[x].up] in nodes
    && var cs := nodes[at[path[x].up]].children;
       cs != [] && cs[|cs| - 1] == x
  }

  /** When "x/#" includes "x" itself: the code looks back at `x` if it has a child or ends its list of siblings. */
  ghost predicate LooksBack(nodes: Nodes, path: map<nat, Path>, at: map<Path, nat>, x: nat, level: int)
    requires x in nodes
  {
    nodes[x].children != [] || (LastSibling(nodes, path, at, x) && level > 0)
  }

  /** The retained messages below `r` that the rest of a filter finds, when the children of `r` are at `level`. */
  ghost predicate Found(nodes: Nodes, path: map<nat, Path>, at: map<Path, nat>, x: nat, r: nat, tokens: seq<string>,
                        level: nat) {
    && x in nodes && nodes[x].retained.Some?
    && var way := Way(path, x, r);
       way != [] && Matches(tokens, way)
       && (EndsInHash(tokens) && |way| + 1 == |tokens| ==> LooksBack(nodes, path, at, x, level + |way| - 1))
  }

  ghost predicate FoundVia(nodes: Nodes, path: map<nat, Path>, at: map<Path, nat>, x: nat, r: nat, tokens: seq<string>,
                           level: nat, labels: set<string>) {
    Found(nodes, path, at, x, r, tokens, level) && Way(path, x, r)[0] in labels
  }

  lemma WayIsLiteral(nodes: Nodes, path: map<nat, Path>, at: map<Path, nat>, ret: map<Path, nat>, x: nat, r: nat)
    requires Named(nodes, path, at) && Keeps(nodes, path, at, ret) && x in nodes && r in nodes
             && nodes[x].retained.Some?
    ensures LiteralLevels(Way(path, x, r))
  {
    var way := Way(path, x, r);
    if way != [] {
      ExtendSuffix(path[x], path[r]);
      LabelsExtend(path[r], way);
      assert path[x] in ret;
      forall l | l in way ensures Literal(l) {
        assert l in Labels(path[x]);
      }
    }
  }

  /** What the walk does at one child, seen from one node: the cases of the loop in `_retain_search`. */
  lemma FoundThroughChild(nodes: Nodes, path: map<nat, Path>, at: map<Path, nat>, ret: map<Path, nat>, x: nat, r: nat,
                          b: nat, tokens: seq<string>, level: nat)
    requires Shape(nodes, path, at) && Keeps(nodes, path, at, ret)
    requires x in nodes && r in nodes && b in nodes[r].children && b in nodes
    requires tokens != [] && HashLast(tokens)
    ensures var here := FoundVia(nodes, path, at, x, r, tokens, level, {nodes[b].topic});
            var self := x == b && nodes[b].retained.Some?;
            if tokens == ["#"] then here <==> Found(nodes, path, at, x, b, tokens, level + 1) || self
            else if nodes[b].topic != "+" && (nodes[b].topic == tokens[0] || tokens[0] == "+") then
              if |tokens| > 1
              then here <==> Found(nodes, path, at, x, b, tokens[1..], level + 1)
                             || (self && tokens[1..] == ["#"] && LooksBack(nodes, path, at, b, level))
              else here <==> self
            else !here
  {
    var s := Way(path, x, r);
    assert Down(nodes, path, r);
    SuffixStep(path[x], path[r], nodes[b].topic);
    SuffixEmpty(path[x], path[b]);
    if s != [] && s[0] == nodes[b].topic {
      var b' := WayThroughChild(nodes, path, at, x, r);
      assert b' == b by { if b' != b { SiblingsDiffer(nodes, path, at, r, b, b'); } }
      if tokens != ["#"] { MatchesStep(tokens, s); }
      if nodes[x].retained.Some? {
        WayIsLiteral(nodes, path, at, ret, x, r);
        assert Literal(s[0]) && '+' in "+";
      }
    }
    if x == b || Way(path, x, b) != [] {
      assert s == [nodes[b].topic] + Way(path, x, b);
    }
  }

  lemma HashChild(nodes: Nodes, path: map<nat, Path>, at: map<Path, nat>, ret: map<Path, nat>, r: nat, b: nat,
                  level: nat, below: seq<nat>, found: seq<nat>)
    requires Shape(nodes, path, at) && Keeps(nodes, path, at, ret)
    requires r in nodes && b in nodes[r].children && b in nodes && NoDups(below)
    requires if nodes[b].children == [] then below == [] else forall x ::
               x in below <==> Found(nodes, path, at, x, b, ["#"], level + 1)
    requires found == (if nodes[b].retained.Some? then [b] else []) + below
    ensures NoDups(found) && forall x :: x in found <==> FoundVia(nodes, path, at, x, r, ["#"], level, {nodes[b].topic})
  {
    SuffixEmpty(path[b], path[b]);
    if nodes[b].children == [] {
      var hash, deeper := ["#"], level + 1;
      forall x ensures !Found(nodes, path, at, x, b, hash, deeper) {
        if Found(nodes, path, at, x, b, hash, deeper) { var c := WayThroughChild(nodes, path, at, x, b); }
      }
    }
    assert !Found(nodes, path, at, b, b, ["#"], level + 1);
    WithOneMore(below, b);
    forall x | x in nodes ensures FoundVia(nodes, path, at, x, r, ["#"], level, {nodes[b].topic}) <==> x in found {
      FoundThroughChild(nodes, path, at, ret, x, r, b, ["#"], level);
    }
  }

  lemma InnerChild(nodes: Nodes, path: map<nat, Path>, at: map<Path, nat>, ret: map<Path, nat>, r: nat, b: nat,
                   tokens: seq<string>, level: nat, below: seq<nat>, found: seq<nat>)
    requires Shape(nodes, path, at) && Keeps(nodes, path, at, ret)
    requires r in nodes && b in nodes[r].children && b in nodes && NoDups(below)
    requires |tokens| > 1 && HashLast(tokens) && nodes[b].topic != "+"
             && (nodes[b].topic == tokens[0] || tokens[0] == "+")
    requires forall x :: x in below <==> Found(nodes, path, at, x, b, tokens[1..], level + 1)
    requires found == below
                      + if tokens[1..] == ["#"] && LooksBack(nodes, path, at, b, level) && nodes[b].retained.Some?
                        then [b] else []
    ensures NoDups(found) && forall x ::
              x in found <==> FoundVia(nodes, path, at, x, r, tokens, level, {nodes[b].topic})
  {
    SuffixEmpty(path[b], path[b]);
    assert !Found(nodes, path, at, b, b, tokens[1..], level + 1);
    WithOneMore(below, b);
    forall x | x in nodes ensures FoundVia(nodes, path, at, x, r, tokens, level, {nodes[b].topic}) <==> x in found {
      FoundThroughChild(nodes, path, at, ret, x, r, b, tokens, level);
    }
  }

  lemma OtherChild(nodes: Nodes, path: map<nat, Path>, at: map<Path, nat>, ret: map<Path, nat>, r: nat, b: nat,
                   tokens: seq<string>, level: nat)
    requires Shape(nodes, path, at) && Keeps(nodes, path, at, ret)
    requires r in nodes && b in nodes[r].children && b in nodes
    requires tokens != [] && tokens != ["#"] && HashLast(tokens)
    requires nodes[b].topic != "+" && (nodes[b].topic == tokens[0] || tokens[0] == "+") ==> |tokens| == 1
    ensures var own := nodes[b].topic != "+" && (nodes[b].topic == tokens[0] || tokens[0] == "+");
            forall x :: x in (if own && nodes[b].retained.Some? then [b] else [])
                        <==> FoundVia(nodes, path, at, x, r, tokens, level, {nodes[b].topic})
  {
    forall x | x in nodes
      ensures x in (if nodes[b].topic != "+" && (nodes[b].topic == tokens[0] || tokens[0] == "+")
                    && nodes[b].retained.Some? then [b] else [])
              <==> FoundVia(nodes, path, at, x, r, tokens, level, {nodes[b].topic})
    {
      FoundThroughChild(nodes, path, at, ret, x, r, b, tokens, level);
    }
  }

  /** `branch->next` is null exactly for the last sibling. */
  lemma LastChild(nodes: Nodes, path: map<nat, Path>, at: map<Path, nat>, r: nat, k: nat)
    requires Shape(nodes, path, at) && r in nodes && k < |nodes[r].children|
    ensures LastSibling(nodes, path, at, nodes[r].children[k]) <==> k + 1 == |nodes[r].children|
  {
    assert nodes[r].children[k] in nodes[r].children && Down(nodes, path, r);
  }

  lemma AllFound(nodes: Nodes, path: map<nat, Path>, at: map<Path, nat>, r: nat, tokens: seq<string>, level: nat,
                 labels: set<string>)
    requires Shape(nodes, path, at) && r in nodes
    requires forall c | c in nodes[r].children && c in nodes :: nodes[c].topic in labels
    ensures forall x ::
              FoundVia(nodes, path, at, x, r, tokens, level, labels) <==> Found(nodes, path, at, x, r, tokens, level)
  {
    forall x | Found(nodes, path, at, x, r, tokens, level) ensures Way(path, x, r)[0] in labels {
      var b := WayThroughChild(nodes, path, at, x, r);
    }
  }

  lemma FoundExtended(nodes: Nodes, path: map<nat, Path>, at: map<Path, nat>, r: nat, b: nat, tokens: seq<string>,
                      level: nat, labels: set<string>, found: seq<nat>, more: seq<nat>)
    requires b in nodes && nodes[b].topic !in labels && NoDups(found) && NoDups(more)
    requires forall x :: x in found <==> FoundVia(nodes, path, at, x, r, tokens, level, labels)
    requires forall x :: x in more <==> FoundVia(nodes, path, at, x, r, tokens, level, {nodes[b].topic})
    ensures NoDups(found + more)
    ensures forall x :: x in found + more <==> FoundVia(nodes, path, at, x, r, tokens, level, labels + {nodes[b].topic})
  {
    forall i, j | 0 <= i < j < |found + more| ensures (found + more)[i] != (found + more)[j] {
      if i < |found| <= j {
        assert found[i] in found && more[j - |found|] in more;
      }
    }
  }

  /** The walk from the top for a whole filter, told about the names of retained messages. */
  lemma FoundFromTheTop(nodes: Nodes, path: map<nat, Path>, at: map<Path, nat>, ret: map<Path, nat>, top: nat,
                        filter: string, topic: string)
    requires Shape(nodes, path, at) && Keeps(nodes, path, at, ret)
    requires ValidFilter(filter) && ValidTopic(topic) && FullPath(topic) in ret
    requires top in nodes && path[top] == Sub(Root, Tokens(filter)[0])
    ensures FullPath(topic) in at && at[FullPath(topic)] in nodes
    ensures Found(nodes, path, at, at[FullPath(topic)], top, Tokens(filter), 0) <==>
            StringMatches(filter, topic)
                && (AsksForParent(filter, topic) ==>
                      LooksBack(nodes, path, at, at[FullPath(topic)], |Tokens(topic)| - 1))
  {
    TokensMatch(filter, topic);
    SuffixOfFull(topic, Tokens(filter)[0]);
    FirstLevel(filter);
    FirstLevel(topic);
    var f, t := Tokens(filter), Tokens(topic);
    assert f[|f| - 1] == Split(filter)[|Split(filter)| - 1];
    if StringMatches(filter, topic) {
      assert |f| - |Split(filter)| == |t| - |Split(topic)|;
    }
  }

  /** The filter is "x/#" and the topic has exactly the levels of "x". */
  predicate AsksForParent(filter: string, topic: string) {
    EndsInHash(Split(filter)) && |Split(topic)| + 1 == |Split(filter)|
  }

  /**
    A subscription asks for the retained message of a topic at node `r`: the filter matches it, and where "x/#" is to
    match "x" itself, the node has a child or is the last among its siblings.
  */
  ghost predicate Asked(nodes: Nodes, path: map<nat, Path>, at: map<Path, nat>, r: nat, filter: string, topic: string)
    requires r in nodes
  {
    StringMatches(filter, topic)
        && (AsksForParent(filter, topic) ==> LooksBack(nodes, path, at, r, |Tokens(topic)| - 1))
  }

  const PLAIN: Path := Sub(Sub(Root, ""), "")

  /** The tree of a broker that retains a message for "a" and then one for "b". */
  const TWO_TOPICS: Nodes := map[ROOT := Node(None, "", [1, 2], [], None), 1 := Node(None, "", [3], [], None),
                                 2 := Node(None, "$SYS", [], [], None),
                                 3 := Node(Some(1), "", [4, 5], [], None),
                                 4 := Node(Some(3), "a", [], [], Some(7)), 5 := Node(Some(3), "b", [], [], Some(8))]
  const TWO_PATHS: map<nat, Path> :=
        map[ROOT := Root, 1 := Sub(Root, ""), 2 := Sub(Root, "$SYS"), 3 := PLAIN, 4 := Sub(PLAIN, "a"),
            5 := Sub(PLAIN, "b")]
  const TWO_AT: map<Path, nat> :=
        map[Root := ROOT, Sub(Root, "") := 1, Sub(Root, "$SYS") := 2, PLAIN := 3, Sub(PLAIN, "a") := 4,
            Sub(PLAIN, "b") := 5]

  /** The nodes come one after the other, and then the messages. */
  lemma TwoTopicsSound()
    ensures Sound(TWO_TOPICS, 6, TWO_PATHS, TWO_AT, map[], map[Sub(PLAIN, "a") := 7, Sub(PLAIN, "b") := 8], map[])
  {
    hide Sound;
    FirstSound();
    SoundAdded(FIRST_NODES, 3, FIRST_PATHS, FIRST_AT, map[], map[], map[], 1, "", false);
    var nodes1, path1, at1 := AddedNodes(FIRST_NODES, 1, "", false, 3), FIRST_PATHS[3 := PLAIN], FIRST_AT[PLAIN := 3];
    SoundAdded(nodes1, 4, path1, at1, map[], map[], map[], 3, "a", false);
    var nodes2, path2, at2 := AddedNodes(nodes1, 3, "a", false, 4), path1[4 := Sub(PLAIN, "a")],
        at1[Sub(PLAIN, "a") := 4];
    SoundAdded(nodes2, 5, path2, at2, map[], map[], map[], 3, "b", false);
    var nodes3 := AddedNodes(nodes2, 3, "b", false, 5);
    FullOf("a");
    FullOf("b");
    SoundRetained(nodes3, 6, TWO_PATHS, TWO_AT, map[], map[], map[], 4, Some(7));
    var nodes4 := nodes3[4 := nodes3[4].(retained := Some(7))];
    SoundRetained(nodes4, 6, TWO_PATHS, TWO_AT, map[], map[Sub(PLAIN, "a") := 7], map[], 5, Some(8));
    assert nodes3[1].children == [3] && nodes3[3].children == [4, 5];
    assert nodes4[5 := nodes4[5].(retained := Some(8))] == TWO_TOPICS;
    assert map[Sub(PLAIN, "a") := 7][Sub(PLAIN, "b") := 8] == map[Sub(PLAIN, "a") := 7, Sub(PLAIN, "b") := 8];
  }

  lemma FullOf(name: string)
    requires name == "a" || name == "b"
    ensures Full(Sub(PLAIN, name)) && LiteralLevels(Labels(Sub(PLAIN, name)))
  {
    assert Labels(Sub(PLAIN, name)) == ["", "", name];
  }

  /**
    A retained message that is missed: the topics "a" and "b" have one each, and "a/#" does not ask for that of "a",
    whose node has no child and is followed by that of "b".
  */
  lemma ParentNotAsked()
    ensures Sound(TWO_TOPICS, 6, TWO_PATHS, TWO_AT, map[], map[FullPath("a") := 7, FullPath("b") := 8], map[])
            && TWO_AT[FullPath("a")] == 4
    ensures StringMatches("a/#", "a") && !Asked(TWO_TOPICS, TWO_PATHS, TWO_AT, 4, "a/#", "a")
  {
    hide Sound, Split, Tokens, FullPath;
    LevelsOfTwo();
    TwoTopicsSound();
  }

  lemma LevelsOfTwo()
    ensures Split("a/#") == ["a", "#"] && Split("a") == ["a"] && Tokens("a") == ["", "a"]
    ensures FullPath("a") == Sub(PLAIN, "a") && FullPath("b") == Sub(PLAIN, "b")
  {
    assert ['#'] + "" == "#" && ['a'] + "" == "a" && ['b'] + "" == "b";
    assert "a/#"[1..] == "/#" && "/#"[1..] == "#" && "#"[1..] == "" && "a"[1..] == "" && "b"[1..] == "";
    assert Split("#") == [['#'] + Split("")[0]] + Split("")[1..] == ["#"];
    assert Split("/#") == [""] + Split("#") == ["", "#"];
    assert Split("a/#") == [['a'] + Split("/#")[0]] + Split("/#")[1..] == ["a", "#"];
    assert Split("a") == [['a'] + Split("")[0]] + Split("")[1..] == ["a"];
    assert Split("b") == [['b'] + Split("")[0]] + Split("")[1..] == ["b"];
    assert Tokens("a") == ["", "a"] && Tokens("b") == ["", "b"];
  }
}
