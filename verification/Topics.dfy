/**
  Topic strings and topic filters: cutting them into levels, checking where wildcards stand, and
  the two ways the code base has of matching a topic against a filter.

  A C string ends at its NUL, so a Dafny string here is the contents before it; the tests the
  source makes against '\0' are tests for the end of the string.
*/
module Topics {
  import opened Wrappers

  // ----- levels -----

  /** The levels of a topic or filter, section 4.7.1.1 of MQTT 3.1.1. */
  function Split(s: string): (levels: seq<string>)
    ensures |levels| >= 1
  {
    if s == "" then [""]
    else
      var rest := Split(s[1..]);
      if s[0] == '/' then [""] + rest else [[s[0]] + rest[0]] + rest[1..]
  }

  function Join(levels: seq<string>): string
    requires |levels| >= 1
  {
    if |levels| == 1 then levels[0] else levels[0] + "/" + Join(levels[1..])
  }

  predicate NoSlash(s: string) {
    forall i | 0 <= i < |s| :: s[i] != '/'
  }

  lemma {:induction false} JoinSplit(s: string)
    ensures Join(Split(s)) == s
  {
    if s != "" {
      JoinSplit(s[1..]);
      var rest := Split(s[1..]);
      if s[0] == '/' {
        assert ([""] + rest)[1..] == rest;
        assert "" + "/" + s[1..] == s;
      } else {
        var levels := [[s[0]] + rest[0]] + rest[1..];
        assert levels[1..] == rest[1..];
        assert [s[0]] + s[1..] == s;
        if |rest| > 1 {
          assert [s[0]] + rest[0] + "/" + Join(rest[1..]) == [s[0]] + (rest[0] + "/" + Join(rest[1..]));
        }
      }
    }
  }

  /** The first level ends at the first slash. */
  lemma {:induction false} SplitAt(s: string, k: nat)
    requires k <= |s| && NoSlash(s[..k])
    ensures k == |s| ==> Split(s) == [s]
    ensures k < |s| && s[k] == '/' ==> Split(s) == [s[..k]] + Split(s[k + 1..])
  {
    if k == 0 {
      assert s[..0] == "";
    } else {
      assert s[0] == s[..k][0] != '/';
      assert s[1..][..k - 1] == s[..k][1..];
      SplitAt(s[1..], k - 1);
      assert [s[0]] + s[1..] == s;
      if k < |s| && s[k] == '/' {
        assert s[1..][k..] == s[k + 1..];
        assert [s[0]] + s[1..][..k - 1] == s[..k];
      }
    }
  }

  lemma {:induction false} SplitHasNoSlash(s: string)
    ensures forall l | l in Split(s) :: NoSlash(l)
  {
    if s != "" {
      SplitHasNoSlash(s[1..]);
      var rest := Split(s[1..]);
      assert NoSlash(rest[0]);
      assert s[0] != '/' ==> NoSlash([s[0]] + rest[0]);
    }
  }

  /** Levels without slashes survive being joined and split again. */
  lemma {:induction false} SplitJoin(levels: seq<string>)
    requires |levels| >= 1 && forall l | l in levels :: NoSlash(l)
    ensures Split(Join(levels)) == levels
  {
    var s := Join(levels);
    assert NoSlash(levels[0]);
    if |levels| == 1 {
      assert s[..|s|] == s;
      SplitAt(s, |s|);
    } else {
      var tail := Join(levels[1..]);
      var k := |levels[0]|;
      assert s == levels[0] + ("/" + tail);
      assert s[..k] == levels[0] && s[k + 1..] == tail;
      SplitAt(s, k);
      SplitJoin(levels[1..]);
    }
  }

  predicate StartsWithDollar(s: string) {
    s != "" && s[0] == '$'
  }

  /** What the subscription tree is walked with: one more empty level unless the string starts with '$'. */
  function Tokens(s: string): (tokens: seq<string>)
    ensures |tokens| >= 1
  {
    (if StartsWithDollar(s) then [] else [""]) + Split(s)
  }

  lemma TokensInjective(s: string, t: string)
    requires Tokens(s) == Tokens(t)
    ensures s == t
  {
    JoinSplit(s);
    JoinSplit(t);
    FirstLevel(s);
    FirstLevel(t);
    assert StartsWithDollar(s) ==> Tokens(s)[0] == Split(s)[0];
    assert StartsWithDollar(t) ==> Tokens(t)[0] == Split(t)[0];
    if StartsWithDollar(s) == StartsWithDollar(t) {
      assert Split(s) == Tokens(s)[|Tokens(s)| - |Split(s)|..] == Split(t);
    }
  }

  /** The first level starts the way the string does. */
  lemma FirstLevel(s: string)
    ensures StartsWithDollar(s) <==> StartsWithDollar(Split(s)[0])
  {
    if s != "" {
      var rest := Split(s[1..]);
    }
  }

  /** The invariant of the cutting loop: what is cut off already and what is still to be cut. */
  ghost predicate CutUpTo(s: string, tokens: seq<string>, start: nat, i: nat) {
    if i <= |s| then start <= i && NoSlash(s[start..i]) && tokens + Split(s[start..]) == Tokens(s)
    else tokens == Tokens(s)
  }

  lemma CutStep(s: string, tokens: seq<string>, start: nat, i: nat)
    requires i <= |s| && CutUpTo(s, tokens, start, i)
    ensures i == |s| || s[i] == '/' ==> CutUpTo(s, tokens + [s[start..i]], i + 1, i + 1)
    ensures i < |s| && s[i] != '/' ==> CutUpTo(s, tokens, start, i + 1)
  {
    var rest := s[start..];
    assert rest[..i - start] == s[start..i];
    SplitAt(rest, i - start);
    if i == |s| {
      assert s[start..i] == rest;
    } else if s[i] == '/' {
      assert rest[i - start + 1..] == s[i + 1..];
      assert tokens + ([s[start..i]] + Split(s[i + 1..])) == tokens + [s[start..i]] + Split(s[i + 1..]);
    } else {
      assert s[start..i + 1] == s[start..i] + [s[i]];
    }
  }

  /** `_sub_topic_tokenise`: one pass over the characters, cutting at every slash and at the end. */
  method Tokenise(subtopic: string) returns (tokens: seq<string>)
    ensures tokens == Tokens(subtopic)
  {
    tokens := [];
    if !StartsWithDollar(subtopic) {
      tokens := [""];
    }
    var start := 0;
    assert CutUpTo(subtopic, tokens, 0, 0) by { assert subtopic[0..] == subtopic; }
    if subtopic != "" && subtopic[0] == '/' {
      CutStep(subtopic, tokens, 0, 0);
      tokens := tokens + [""];
      start := 1;
    }
    for i := start to |subtopic| + 1
      invariant start <= i && CutUpTo(subtopic, tokens, start, i)
    {
      CutStep(subtopic, tokens, start, i);
      if i == |subtopic| || subtopic[i] == '/' {
        tokens := tokens + [subtopic[start..i]];
        start := i + 1;
      }
    }
  }

  // ----- where wildcards may stand -----

  predicate Literal(level: string) {
    '+' !in level && '#' !in level
  }

  predicate LiteralLevels(levels: seq<string>) {
    forall l | l in levels :: Literal(l)
  }

  /** Section 4.7.1 of MQTT 3.1.1: a wildcard fills its level, and '#' fills the last one. */
  predicate ValidLevels(levels: seq<string>) {
    forall i | 0 <= i < |levels| ::
      Literal(levels[i]) || levels[i] == "+" || (levels[i] == "#" && i == |levels| - 1)
  }

  predicate ValidFilter(filter: string) {
    filter != "" && ValidLevels(Split(filter))
  }

  predicate ValidTopic(topic: string) {
    topic != "" && Literal(topic)
  }

  /**
    The same condition character by character, as `mosquitto_sub_topic_check` looks at it; `atStart` says that a level
    starts here.
  */
  predicate WellPlaced(s: string, atStart: bool) {
    s == "" ||
    ((s[0] == '+' ==> atStart && (|s| == 1 || s[1] == '/')) &&
     (s[0] == '#' ==> atStart && |s| == 1) &&
     WellPlaced(s[1..], s[0] == '/'))
  }

  lemma {:induction false} WellPlacedLevels(s: string, atStart: bool)
    ensures WellPlaced(s, atStart) <==> ValidLevels(Split(s)) && (atStart || Literal(Split(s)[0]))
  {
    if s != "" {
      WellPlacedLevels(s[1..], s[0] == '/');
      var rest := Split(s[1..]);
      var levels := Split(s);
      if s[0] == '/' {
        assert forall i | 0 < i < |levels| :: levels[i] == rest[i - 1];
        assert forall i | 0 <= i < |rest| :: rest[i] == levels[i + 1];
      } else {
        var head := [s[0]] + rest[0];
        assert levels[0] == head && forall i | 0 < i < |levels| :: levels[i] == rest[i];
        assert Literal(head) <==> s[0] != '+' && s[0] != '#' && Literal(rest[0]) by {
          assert forall c :: c in head <==> c == s[0] || c in rest[0];
        }
        assert s[0] in head;
        if |s| > 1 {
          var rest2 := Split(s[2..]);
          assert s[1..][1..] == s[2..];
          assert rest[0] == "" <==> s[1] == '/';
        } else {
          assert rest == [""];
        }
        if s[0] == '+' || s[0] == '#' {
          assert head == "+" <==> s[0] == '+' && rest[0] == "";
          assert head == "#" <==> s[0] == '#' && rest[0] == "";
        }
      }
    }
  }

  /** `mosquitto_sub_topic_check`. */
  method SubTopicCheck(str: string) returns (ok: bool)
    ensures ok <==> ValidLevels(Split(str)) && |str| <= 65535
  {
    WellPlacedLevels(str, true);
    var previous := None;
    for i := 0 to |str|
      invariant previous == if i == 0 then None else Some(str[i - 1])
      invariant WellPlaced(str, true) == WellPlaced(str[i..], previous.None? || previous.value == '/')
    {
      var here := str[i..];
      assert here[1..] == str[i + 1..];
      if str[i] == '+' {
        if (previous.Some? && previous.value != '/') || (i + 1 < |str| && str[i + 1] != '/') {
          return false;
        }
      } else if str[i] == '#' {
        if (previous.Some? && previous.value != '/') || i + 1 < |str| {
          return false;
        }
      }
      previous := Some(str[i]);
    }
    return |str| <= 65535;
  }

  /** `mosquitto_pub_topic_check`. */
  method PubTopicCheck(str: string) returns (ok: bool)
    ensures ok <==> Literal(str) && |str| <= 65535
  {
    for i := 0 to |str|
      invariant Literal(str[..i])
    {
      if str[i] == '+' || str[i] == '#' {
        return false;
      }
      assert str[..i + 1] == str[..i] + [str[i]];
    }
    assert str[..|str|] == str;
    return |str| <= 65535;
  }

  lemma {:induction false} LiteralSplit(s: string)
    requires Literal(s)
    ensures LiteralLevels(Split(s))
  {
    if s != "" {
      assert forall c | c in s[1..] :: c in s;
      LiteralSplit(s[1..]);
      var rest := Split(s[1..]);
      assert Literal(rest[0]);
      var head := [s[0]] + rest[0];
      assert forall c :: c in head <==> c == s[0] || c in rest[0];
      assert s[0] in s;
    }
  }

  // ----- matching, level by level -----

  predicate LevelMatches(filterLevel: string, topicLevel: string) {
    filterLevel == "+" || filterLevel == topicLevel
  }

  predicate EndsInHash(filter: seq<string>) {
    filter != [] && filter[|filter| - 1] == "#"
  }

  /**
    Section 4.7.1.2 and 4.7.1.3: '+' stands for one level, a final '#' for the parent level and any number below it.
  */
  predicate Matches(filter: seq<string>, topic: seq<string>) {
    if EndsInHash(filter) then
      |topic| >= |filter| - 1 && forall i | 0 <= i < |filter| - 1 :: LevelMatches(filter[i], topic[i])
    else
      |topic| == |filter| && forall i | 0 <= i < |filter| :: LevelMatches(filter[i], topic[i])
  }

  /** Matching of whole strings; section 4.7.2 keeps leading wildcards away from topics that start with '$'. */
  predicate StringMatches(filter: string, topic: string) {
    && Matches(Split(filter), Split(topic))
    && !(StartsWithDollar(topic) && filter != "" && (filter[0] == '+' || filter[0] == '#'))
  }

  lemma MatchesStep(filter: seq<string>, topic: seq<string>)
    requires filter != [] && topic != [] && filter != ["#"]
    ensures Matches(filter, topic) <==> LevelMatches(filter[0], topic[0]) && Matches(filter[1..], topic[1..])
  {
    var f, t := filter[1..], topic[1..];
    assert forall i | 0 <= i < |f| :: f[i] == filter[i + 1];
    assert forall i | 0 <= i < |t| :: t[i] == topic[i + 1];
    if LevelMatches(filter[0], topic[0]) && Matches(f, t) {
      forall i | 0 <= i < |filter| && i < |topic| && i < |filter| - (if EndsInHash(filter) then 1 else 0)
        ensures LevelMatches(filter[i], topic[i])
      {
        if i > 0 { assert LevelMatches(f[i - 1], t[i - 1]); }
      }
    }
  }

  /** The extra leading token is exactly what enforces the rule about '$'. */
  lemma TokensMatch(filter: string, topic: string)
    requires ValidFilter(filter) && ValidTopic(topic)
    ensures Tokens(filter)[0] == Tokens(topic)[0] && Matches(Tokens(filter), Tokens(topic))
            <==> StringMatches(filter, topic)
  {
    var f, t := Split(filter), Split(topic);
    var ft, tt := Tokens(filter), Tokens(topic);
    FirstLevel(filter);
    FirstLevel(topic);
    LiteralSplit(topic);
    assert f[0] == "#" <==> f == ["#"];
    FirstLevelWildcard(filter);
    if f != ["#"] { MatchesStep(f, t); }
    if !StartsWithDollar(filter) {
      assert ft[0] == "" && ft[1..] == f && ft != ["#"];
      MatchesStep(ft, tt);
      if !StartsWithDollar(topic) {
        assert tt[1..] == t;
      } else {
        assert tt[0] == t[0] != "";
        assert f[0] != t[0];
      }
    } else {
      assert f[0][0] == '$' && "+"[0] != '$' && "#"[0] != '$';
      assert f != ["#"] && f[0] != "+";
      if !StartsWithDollar(topic) {
        assert tt[0] == "" && f[0] != t[0];
      } else {
        assert tt == t;
      }
    }
  }

  lemma FirstLevelWildcard(filter: string)
    requires ValidFilter(filter)
    ensures filter[0] == '+' <==> Split(filter)[0] == "+"
    ensures filter[0] == '#' <==> Split(filter)[0] == "#"
  {
    var rest := Split(filter[1..]);
    if filter[0] != '/' {
      assert Split(filter)[0] == [filter[0]] + rest[0];
      assert filter[0] in Split(filter)[0];
    }
  }

  // ----- the character-level matcher -----

  /** The filters and topics on which the matcher says no although they may match. */
  predicate MissesParent(filter: seq<string>, topic: seq<string>) {
    && |filter| >= 2 && filter[|filter| - 1] == "#" && filter[|filter| - 2] == "+"
    && |topic| == |filter| - 1
  }

  /** What the loop of the matcher still has to decide once it stands at suffixes `s` and `t`. */
  predicate Undecided(s: string, t: string) {
    Matches(Split(s), Split(t)) && !MissesParent(Split(s), Split(t)) && !(s == "/#" && t == "")
  }

  /** Stepping over a character that both sides share leaves the answer open. */
  lemma StepOverEqual(s: string, t: string, atStart: bool)
    requires WellPlaced(s, atStart) && s != "" && t != "" && s[0] == t[0] && s[0] != '+' && s[0] != '#'
    requires !(|t| == 1 && s[1..] == "/#")
    ensures Undecided(s, t) == Undecided(s[1..], t[1..])
  {
    if s[0] == '/' {
      StepOverSlash(s, t);
    } else {
      StepOverCharacter(s, t, atStart);
    }
  }

  lemma StepOverSlash(s: string, t: string)
    requires s != "" && t != "" && s[0] == t[0] == '/' && !(|t| == 1 && s[1..] == "/#")
    ensures Undecided(s, t) == Undecided(s[1..], t[1..])
  {
    var f, g := Split(s), Split(t);
    var f', g' := Split(s[1..]), Split(t[1..]);
    assert f == [""] + f' && g == [""] + g' && f[1..] == f' && g[1..] == g';
    MatchesStep(f, g);
  }

  lemma StepOverCharacter(s: string, t: string, atStart: bool)
    requires WellPlaced(s, atStart) && s != "" && t != "" && s[0] == t[0] && s[0] != '+' && s[0] != '#' && s[0] != '/'
    requires !(|t| == 1 && s[1..] == "/#")
    ensures Undecided(s, t) == Undecided(s[1..], t[1..])
  {
    hide Matches, EndsInHash, NoSlash;
    var f, g := Split(s), Split(t);
    var f', g' := Split(s[1..]), Split(t[1..]);
    assert f == [[s[0]] + f'[0]] + f'[1..] && g == [[t[0]] + g'[0]] + g'[1..];
    assert f[1..] == f'[1..] && g[1..] == g'[1..];
    assert s[0] in f[0];
    assert f[0] == g[0] <==> f'[0] == g'[0] by {
      assert f[0][1..] == f'[0] && g[0][1..] == g'[0];
    }
    JoinSplit(s[1..]);
    MatchesStep(f, g);
    MatchesStep(f', g');
  }

  lemma EmptyThenHash(s: string)
    ensures s == "/#" <==> Split(s) == ["", "#"]
  {
    JoinSplit(s);
    SplitJoin(["", "#"]);
    assert Join(["", "#"]) == "/#" by { assert ["", "#"][1..] == ["#"]; assert Join(["#"]) == "#"; }
  }

  /** At a '+' the loop skips the rest of the topic's level. */
  lemma StepOverPlus(s: string, t: string, k: nat, atStart: bool)
    requires WellPlaced(s, atStart) && s != "" && s[0] == '+'
    requires k <= |t| && NoSlash(t[..k]) && (k == |t| || t[k] == '/')
    ensures Undecided(s, t) == Undecided(s[1..], t[k..])
  {
    var f, g := Split(s), Split(t);
    var f', g' := Split(s[1..]), Split(t[k..]);
    SplitAt(t, k);
    assert f'[0] == "" by {
      if |s| > 1 { assert s[1] == '/'; }
    }
    assert f == ["+"] + f'[1..] by { assert ['+'] + "" == "+"; }
    assert f[0][0] != "#"[0];
    SplitAt(t[k..], 0);
    if k < |t| {
      assert t[k..][1..] == t[k + 1..];
    }
    assert g'[0] == "" && g[1..] == g'[1..] && f[1..] == f'[1..];
    MatchesStep(f, g);
    MatchesStep(f', g');
    assert Matches(f, g) == Matches(f', g');
    EmptyThenHash(s[1..]);
    JoinSplit(t[k..]);
    assert |f| == |f'| && |g| == |g'|;
  }

  /** Any other difference of characters decides against a match. */
  lemma StopAtDifference(s: string, t: string, atStart: bool)
    requires WellPlaced(s, atStart) && s != "" && s[0] != '+' && s[0] != '#' && (t == "" || s[0] != t[0])
    ensures !Undecided(s, t)
  {
    var f, g := Split(s), Split(t);
    var f' := Split(s[1..]);
    JoinSplit(s);
    if s[0] != '/' { assert f[0][0] == s[0]; }
    if t != "" && t[0] != '/' { assert g[0][0] == t[0]; }
    MatchesStep(f, g);
    if t == "" && s[0] == '/' {
      assert f[1..] == f';
      JoinSplit(s[1..]);
      assert f' == ["#"] ==> s[1..] == "#" && s == "/#";
    }
  }

  /** The three suffixes at which the loop says yes, and the one at which it runs out of filter. */
  lemma Decided(s: string, t: string)
    ensures s == "" ==> (Undecided(s, t) <==> t == "")
    ensures s == "+" && t == "" ==> Undecided(s, t)
    ensures s == "#" ==> Undecided(s, t)
    ensures |t| == 1 && |s| == 3 && s[0] == t[0] && s[0] != '+' && s[1] == '/' && s[2] == '#' ==> Undecided(s, t)
  {
    JoinSplit(t);
    SplitAt("#", 1);
    SplitAt("+", 1);
    assert "#"[..1] == "#" && "+"[..1] == "+";
    if |t| == 1 && |s| == 3 && s[0] == t[0] && s[0] != '+' && s[1] == '/' && s[2] == '#' {
      var f := Split(s);
      var f' := Split(s[1..]);
      assert f' == ["", "#"] by {
        assert s[1..][1..] == "#";
        assert s[1..][0] == '/';
      }
      assert Split(t[1..]) == [""];
    }
  }

  /** Where the loop stands: at well-placed suffixes on which the answer still depends. */
  ghost predicate Standing(sub: string, topic: string, spos: nat, tpos: nat, answer: bool) {
    && spos <= |sub| && tpos <= |topic| && Literal(topic)
    && WellPlaced(sub[spos..], spos == 0 || sub[spos - 1] == '/')
    && answer == Undecided(sub[spos..], topic[tpos..])
  }

  lemma StandingStarts(sub: string, topic: string)
    requires ValidFilter(sub) && ValidTopic(topic)
    ensures sub != "" && topic != ""
    ensures var answer := StringMatches(sub, topic) && !MissesParent(Split(sub), Split(topic));
            if (sub[0] == '$') != (topic[0] == '$') then !answer else Standing(sub, topic, 0, 0, answer)
  {
    DollarDecides(sub, topic);
    WellPlacedLevels(sub, true);
    assert sub[0..] == sub && topic[0..] == topic;
  }

  lemma StandingEnds(sub: string, topic: string, spos: nat, tpos: nat, answer: bool)
    requires Standing(sub, topic, spos, tpos, answer)
    ensures spos == |sub| ==> answer == (tpos == |topic|)
    ensures spos == |sub| - 1 && tpos == |topic| && sub[spos] == '+' ==> answer
    ensures spos < |sub| && sub[spos] == '#' ==> answer && spos + 1 == |sub|
    ensures spos < |sub| && (sub[spos] == '#' || sub[spos] == '+') ==> spos == 0 || sub[spos - 1] == '/'
    ensures spos < |sub| && sub[spos] == '+' ==> spos + 1 == |sub| || sub[spos + 1] == '/'
    ensures spos == |sub| - 3 && tpos == |topic| - 1 && sub[spos] == topic[tpos] && sub[spos + 1] == '/'
            && sub[spos + 2] == '#'
            ==> answer
    ensures spos < |sub| && sub[spos] != '+' && sub[spos] != '#' && (tpos == |topic| || sub[spos] != topic[tpos]) ==>
              !answer
  {
    var s, t := sub[spos..], topic[tpos..];
    Decided(s, t);
    if s != "" {
      assert s[0] == sub[spos];
      if |s| > 1 { assert s[1] == sub[spos + 1]; }
      if s[0] != '+' && s[0] != '#' && (t == "" || s[0] != t[0]) {
        StopAtDifference(s, t, spos == 0 || sub[spos - 1] == '/');
      }
    }
  }

  lemma StandingEqual(sub: string, topic: string, spos: nat, tpos: nat, answer: bool)
    requires Standing(sub, topic, spos, tpos, answer)
    requires spos < |sub| && tpos < |topic| && sub[spos] == topic[tpos]
    requires !(tpos == |topic| - 1 && spos == |sub| - 3 && sub[spos + 1] == '/' && sub[spos + 2] == '#')
    ensures Standing(sub, topic, spos + 1, tpos + 1, answer)
  {
    hide Undecided, Split;
    var s, t := sub[spos..], topic[tpos..];
    assert topic[tpos] in topic;
    assert s[1..] == sub[spos + 1..] && t[1..] == topic[tpos + 1..];
    StepOverEqual(s, t, spos == 0 || sub[spos - 1] == '/');
  }

  lemma StandingPlus(sub: string, topic: string, spos: nat, from: nat, tpos: nat, answer: bool)
    requires Standing(sub, topic, spos, from, answer)
    requires spos < |sub| && sub[spos] == '+'
    requires from <= tpos <= |topic| && NoSlash(topic[from..tpos]) && (tpos == |topic| || topic[tpos] == '/')
    ensures Standing(sub, topic, spos + 1, tpos, answer)
  {
    hide Undecided, Split;
    var s, t := sub[spos..], topic[from..];
    assert s[1..] == sub[spos + 1..];
    assert t[..tpos - from] == topic[from..tpos] && t[tpos - from..] == topic[tpos..];
    StepOverPlus(s, t, tpos - from, spos == 0 || sub[spos - 1] == '/');
  }

  /** Past the test of the first characters the rule about '$' has had its say. */
  lemma DollarDecides(sub: string, topic: string)
    requires ValidFilter(sub) && ValidTopic(topic)
    ensures StartsWithDollar(sub) != StartsWithDollar(topic) ==> !StringMatches(sub, topic)
    ensures StartsWithDollar(sub) == StartsWithDollar(topic) ==>
              StringMatches(sub, topic) == Matches(Split(sub), Split(topic))
  {
    FirstLevel(sub);
    FirstLevel(topic);
    FirstLevelWildcard(sub);
    if StartsWithDollar(sub) != StartsWithDollar(topic) && Split(sub) != ["#"] {
      MatchesStep(Split(sub), Split(topic));
    }
  }

  /**
    `mosquitto_topic_matches_sub`: `invalid` is the returned MOSQ_ERR_INVAL, `result` what was stored
    through the pointer, None when nothing was. Reading one past the end of the topic finds the NUL,
    which no character of the filter equals.
  */
  method TopicMatchesSub(sub: string, topic: string) returns (invalid: bool, result: Option<bool>)
    ensures ValidFilter(sub) && ValidTopic(topic) ==>
              && !invalid
              && result == Some(StringMatches(sub, topic) && !MissesParent(Split(sub), Split(topic)))
  {
    hide Standing, ValidFilter, ValidTopic, StringMatches, MissesParent, Split;
    var slen, tlen := |sub|, |topic|;
    result := None;
    ghost var promised := ValidFilter(sub) && ValidTopic(topic);
    ghost var answer := StringMatches(sub, topic) && !MissesParent(Split(sub), Split(topic));
    if promised { StandingStarts(sub, topic); }
    if slen == 0 || tlen == 0 {
      return true, Some(false);
    }
    if (sub[0] == '$' && topic[0] != '$') || (topic[0] == '$' && sub[0] != '$') {
      return false, Some(false);
    }
    var spos, tpos := 0, 0;
    while spos < slen && tpos <= tlen
      invariant 0 <= spos <= slen && 0 <= tpos <= tlen && result.None?
      invariant promised ==> Standing(sub, topic, spos, tpos, answer)
      invariant !(spos == slen && tpos == tlen)
      decreases slen - spos
    {
      if promised { StandingEnds(sub, topic, spos, tpos, answer); }
      if tpos < tlen && sub[spos] == topic[tpos] {
        if tpos == tlen - 1 {
          // "foo" also matches "foo/#".
          if spos == slen - 3 && sub[spos + 1] == '/' && sub[spos + 2] == '#' {
            return false, Some(true);
          }
        }
        if promised {
          StandingEqual(sub, topic, spos, tpos, answer);
          StandingEnds(sub, topic, spos + 1, tpos + 1, answer);
        }
        spos := spos + 1;
        tpos := tpos + 1;
        if spos == slen && tpos == tlen {
          return false, Some(true);
        } else if tpos == tlen && spos == slen - 1 && sub[spos] == '+' {
          if spos > 0 && sub[spos - 1] != '/' {
            return true, Some(false);
          }
          return false, Some(true);
        }
      } else if sub[spos] == '+' {
        if spos > 0 && sub[spos - 1] != '/' {
          return true, Some(false);
        }
        if spos < slen - 1 && sub[spos + 1] != '/' {
          return true, Some(false);
        }
        spos := spos + 1;
        ghost var from := tpos;
        while tpos < tlen && topic[tpos] != '/'
          invariant from <= tpos <= tlen && NoSlash(topic[from..tpos])
        {
          assert topic[from..tpos + 1] == topic[from..tpos] + [topic[tpos]];
          tpos := tpos + 1;
        }
        if promised {
          StandingPlus(sub, topic, spos - 1, from, tpos, answer);
          StandingEnds(sub, topic, spos, tpos, answer);
        }
        if tpos == tlen && spos == slen {
          return false, Some(true);
        }
      } else if sub[spos] == '#' {
        if spos > 0 && sub[spos - 1] != '/' {
          return true, Some(false);
        }
        if spos + 1 != slen {
          return true, Some(false);
        } else {
          return false, Some(true);
        }
      } else {
        return false, Some(false);
      }
    }
    if promised { StandingEnds(sub, topic, spos, tpos, answer); }
    if tpos < tlen || spos < slen {
      result := Some(false);
    }
    return false, result;
  }

  /** The one kind of topic that the matcher misses: "a" is matched by "+/#", but not according to the matcher. */
  lemma ParentMissed()
    ensures ValidFilter("+/#") && ValidTopic("a") && StringMatches("+/#", "a") && MissesParent(Split("+/#"), Split("a"))
  {
    assert ['#'] + "" == "#" && ['+'] + "" == "+" && ['a'] + "" == "a";
    assert "+/#"[1..] == "/#" && "/#"[1..] == "#" && "#"[1..] == "" && "a"[1..] == "";
    assert Split("#") == [['#'] + Split("")[0]] + Split("")[1..] == ["#"];
    assert Split("/#") == [""] + Split("#") == ["", "#"];
    assert Split("+/#") == [['+'] + Split("/#")[0]] + Split("/#")[1..] == ["+", "#"];
    assert Split("a") == [['a'] + Split("")[0]] + Split("")[1..] == ["a"];
  }
}
