/** What the chunks of the tree build up again, and which stored messages outlive it. */
module Rebuild {
  import opened Topics
  import opened Tree
  import opened Wire
  import opened Archive
  import opened Snapshot
  import opened Walk

  // ----- subscriptions -----

  /** Where the session of a client is among those that are saved. */
  function NewIndex(clients: seq<Client>, c: nat): nat
    requires c < |clients|
  {
    IndexOf(Saved(clients), clients[c].session.id)
  }

  /** Subscriptions of the saved clients, by their new positions. */
  ghost predicate Renamed(abs: map<(nat, Path), nat>, clients: seq<Client>, abs': map<(nat, Path), nat>) {
    && (forall c, p | (c, p) in abs && c < |clients| && clients[c].persistent ::
          (NewIndex(clients, c), p) in abs' && abs'[(NewIndex(clients, c), p)] == abs[(c, p)])
    && (forall k, p | (k, p) in abs' ::
          exists c :: 0 <= c < |clients| && clients[c].persistent && NewIndex(clients, c) == k && (c, p) in abs)
  }

  /** How far the chunks have come with the subscriptions. */
  ghost predicate BuiltSubs(im: Image, cs: seq<Chunk>, abs: map<(nat, Path), nat>, clients: seq<Client>) {
    && (forall k, p | (k, p) in im.abs ::
          exists c ::
                0 <= c < |clients| && clients[c].persistent && NewIndex(clients, c) == k && (c, p) in abs
                && im.abs[(k, p)] == abs[(c, p)])
    && (forall c, p | (c, p) in abs && 0 <= c < |clients| && clients[c].persistent && abs[(c, p)] < 256 && Full(p)
        && OneByteEach(FilterAt(p))
                      && SubChunkOf(clients, Leaf(c, abs[(c, p)]), FilterAt(p)) in cs ::
                           (NewIndex(clients, c), p) in im.abs)
  }

  lemma SubBuilt(im: Image, cs: seq<Chunk>, abs: map<(nat, Path), nat>, clients: seq<Client>, k: (nat, Path))
    requires BuiltSubs(im, cs, abs, clients)
    requires k in abs && k.0 < |clients| && clients[k.0].persistent && abs[k] < 256 && Full(k.1)
             && OneByteEach(FilterAt(k.1))
    ensures BuiltSubs(im.(abs := im.abs[(NewIndex(clients, k.0), k.1) := abs[k]]), cs
                      + [SubChunkOf(clients, Leaf(k.0, abs[k]), FilterAt(k.1))],
                      abs, clients)
  {
    hide Full, FilterAt, IndexOf, Saved;
    var c := SubChunkOf(clients, Leaf(k.0, abs[k]), FilterAt(k.1));
    var im' := im.(abs := im.abs[(NewIndex(clients, k.0), k.1) := abs[k]]);
    forall d, p | (d, p) in abs && 0 <= d < |clients| && clients[d].persistent && abs[(d, p)] < 256 && Full(p)
        && OneByteEach(FilterAt(p))
                  && SubChunkOf(clients, Leaf(d, abs[(d, p)]), FilterAt(p)) in cs + [c]
      ensures (NewIndex(clients, d), p) in im'.abs
    {
      if SubChunkOf(clients, Leaf(d, abs[(d, p)]), FilterAt(p)) == c {
        TextBack(FilterAt(p));
        TextBack(FilterAt(k.1));
        FilterAtPath(p);
        FilterAtPath(k.1);
      }
    }
    forall j, p | (j, p) in im'.abs
      ensures exists d ::
                0 <= d < |clients| && clients[d].persistent && NewIndex(clients, d) == j && (d, p) in abs
                && im'.abs[(j, p)] == abs[(d, p)]
    {
      if (j, p) == (NewIndex(clients, k.0), k.1) {
        assert (k.0, p) == k;
      }
    }
  }

  /** Two clients that are saved at the same place are the same. */
  lemma SamePlace(clients: seq<Client>, c: nat, d: nat)
    requires forall i, j | 0 <= i < j < |clients| :: clients[i].session.id != clients[j].session.id
    requires c < |clients| && d < |clients| && clients[c].persistent && clients[d].persistent
             && NewIndex(clients, c) == NewIndex(clients, d)
    ensures c == d
  {
    SavedHas(clients, c);
    SavedHas(clients, d);
  }

  lemma SubBack(im: Image, cs: seq<Chunk>, abs: map<(nat, Path), nat>, clients: seq<Client>, c: nat, p: Path)
    requires BuiltSubs(im, cs, abs, clients) && (c, p) in abs && c < |clients| && clients[c].persistent
    requires forall i, j | 0 <= i < j < |clients| :: clients[i].session.id != clients[j].session.id
    requires abs[(c, p)] < 256 && Full(p) && OneByteEach(FilterAt(p))
             && SubChunkOf(clients, Leaf(c, abs[(c, p)]), FilterAt(p)) in cs
    ensures (NewIndex(clients, c), p) in im.abs && im.abs[(NewIndex(clients, c), p)] == abs[(c, p)]
  {
    hide NewIndex, SubChunkOf, FilterAt, Full, OneByteEach;
    var d :| 0 <= d < |clients| && clients[d].persistent && NewIndex(clients, d) == NewIndex(clients, c)
        && (d, p) in abs
             && im.abs[(NewIndex(clients, c), p)] == abs[(d, p)];
    SamePlace(clients, c, d);
  }

  // ----- retained messages -----

  /** A subscription makes sure that there is a top for its first level. */
  predicate Opens(c: Chunk, top: string) {
    c.SubChunk? && Tokens(Text(CString(c.topic)))[0] == top
  }

  predicate TopThere(cs: seq<Chunk>, top: string) {
    top == "" || top == "$SYS" || exists i :: 0 <= i < |cs| && Opens(cs[i], top)
  }

  /** The retained messages that the chunks leave: a message that is marked as retained stands under its own topic. */
  function RetOf(cs: seq<Chunk>, list: seq<Stored>): map<Path, nat> {
    if cs == [] then map[]
    else
      var before, c := cs[..|cs| - 1], cs[|cs| - 1];
      if c.RetainChunk? && MessageAt(list, c.store).Some? && MessageAt(list, c.store).value.topic.Some? then
        var m := MessageAt(list, c.store).value;
        RetainIf(RetOf(before, list), TopThere(before, Tokens(m.topic.value)[0]), m, c.store)
      else RetOf(before, list)
  }

  /** Chunk `i` puts up a message under a topic, or clears it. */
  predicate Concerns(cs: seq<Chunk>, list: seq<Stored>, i: nat, p: Path) {
    && i < |cs| && cs[i].RetainChunk? && MessageAt(list, cs[i].store).Some?
    && var m := MessageAt(list, cs[i].store).value;
       m.topic.Some? && m.retain && FullPath(m.topic.value) == p && TopThere(cs[..i], Tokens(m.topic.value)[0])
  }

  ghost predicate LastPut(cs: seq<Chunk>, list: seq<Stored>, i: nat, p: Path, m: nat) {
    && Concerns(cs, list, i, p) && cs[i].store == m && MessageAt(list, m).value.payload != []
    && forall j: nat | i < j < |cs| :: !Concerns(cs, list, j, p)
  }

  /** The retained message of a topic is the last one that the chunks put up there, unless it is cleared. */
  lemma {:induction false} RetOfIsLast(cs: seq<Chunk>, list: seq<Stored>, p: Path, m: nat)
    ensures p in RetOf(cs, list) && RetOf(cs, list)[p] == m <==> exists i: nat :: LastPut(cs, list, i, p, m)
  {
    hide FullPath, TopThere, Tokens, MessageAt;
    if cs != [] {
      var n := |cs| - 1;
      RetOfIsLast(cs[..n], list, p, m);
      forall i: nat | i < n ensures Concerns(cs, list, i, p) <==> Concerns(cs[..n], list, i, p) {
        assert cs[..n][..i] == cs[..i];
      }
      if Concerns(cs, list, n, p) {
        assert forall i: nat | LastPut(cs, list, i, p, m) :: i == n;
        assert cs[n].store == m && MessageAt(list, m).value.payload != [] ==> LastPut(cs, list, n, p, m);
      } else {
        forall i: nat ensures LastPut(cs, list, i, p, m) <==> LastPut(cs[..n], list, i, p, m) {
        }
      }
    }
  }

  /** What is retained was named, and stands under its own topic. */
  lemma RetOfNamed(cs: seq<Chunk>, list: seq<Stored>, p: Path)
    requires p in RetOf(cs, list)
    ensures var m := RetOf(cs, list)[p];
            RetainChunk(m) in cs && MessageAt(list, m).Some? && Own(MessageAt(list, m).value, p)
  {
    hide FullPath, TopThere, Tokens, MessageAt;
    var m := RetOf(cs, list)[p];
    RetOfIsLast(cs, list, p, m);
    var i: nat :| LastPut(cs, list, i, p, m);
    assert cs[i] == RetainChunk(m);
  }

  /** A message that comes back: its publisher left it under its own topic, and the tree has the top of that by then. */
  ghost predicate ComesBack(cs: seq<Chunk>, list: seq<Stored>, p: Path, m: nat) {
    && Goes(list, m) && Own(MessageAt(list, m).value, p)
    && exists i: nat :: i < |cs| && cs[i] == RetainChunk(m) && Concerns(cs, list, i, p)
  }

  /** A message under its own topic comes back, if the topic does not begin with a '$'. */
  lemma OwnComesBack(cs: seq<Chunk>, abs: map<(nat, Path), nat>, ret: map<Path, nat>, clients: seq<Client>,
                     list: seq<Stored>, p: Path)
    requires Covered(cs, abs, ret, clients, list) && p in ret && Goes(list, ret[p])
    requires Own(MessageAt(list, ret[p]).value, p) && Tokens(MessageAt(list, ret[p]).value.topic.value)[0] == ""
    ensures ComesBack(cs, list, p, ret[p])
  {
    hide FullPath, MessageAt, Tokens, OfSys, Stems;
    assert RetainChunk(ret[p]) in cs;
    hide Covered;
    var i: nat :| i < |cs| && cs[i] == RetainChunk(ret[p]);
    assert TopThere(cs[..i], "");
    assert Concerns(cs, list, i, p);
  }

  /** A message is named by a chunk if it is retained and written. */
  lemma IsNamed(cs: seq<Chunk>, abs: map<(nat, Path), nat>, ret: map<Path, nat>, clients: seq<Client>,
                list: seq<Stored>, m: nat)
    requires Covered(cs, abs, ret, clients, list)
    ensures RetainChunk(m) in cs <==> m in ret.Values && Goes(list, m)
  {
    hide Goes, Full, FilterAt, SubChunkOf, OneByteEach;
    if RetainChunk(m) in cs {
      var i :| 0 <= i < |cs| && cs[i] == RetainChunk(m);
      assert Stems(cs[i], abs, ret, clients, list);
      IsSub(clients);
    }
  }

  lemma FromRetained(cs: seq<Chunk>, abs: map<(nat, Path), nat>, ret: map<Path, nat>, clients: seq<Client>,
                     list: seq<Stored>, p: Path) returns (q: Path)
    requires Covered(cs, abs, ret, clients, list) && p in RetOf(cs, list)
    ensures q in ret && Goes(list, ret[q]) && ret[q] == RetOf(cs, list)[p]
  {
    hide Goes, RetOf, Full, FilterAt, SubChunkOf, OneByteEach, MessageAt, FullPath;
    RetOfNamed(cs, list, p);
    var i :| 0 <= i < |cs| && cs[i] == RetainChunk(RetOf(cs, list)[p]);
    assert Stems(cs[i], abs, ret, clients, list);
    IsSub(clients);
    q :| q in ret && Goes(list, ret[q]) && cs[i] == RetainChunk(ret[q]);
  }

  /** The retained messages are the same again just when all of them come back. */
  lemma SameRetained(cs: seq<Chunk>, abs: map<(nat, Path), nat>, ret: map<Path, nat>, clients: seq<Client>,
                     list: seq<Stored>)
    requires Covered(cs, abs, ret, clients, list)
    ensures RetOf(cs, list) == ret <==> forall p | p in ret :: ComesBack(cs, list, p, ret[p])
  {
    hide Covered, Goes, RetOf, ComesBack;
    var r := RetOf(cs, list);
    forall p | p in r ensures exists q :: q in ret && Goes(list, ret[q]) && ret[q] == r[p] {
      var q := FromRetained(cs, abs, ret, clients, list, p);
    }
    if r == ret { AllComeBack(cs, list, ret); }
    if forall p | p in ret :: ComesBack(cs, list, p, ret[p]) { AllBack(cs, abs, ret, clients, list); }
  }

  lemma AllBack(cs: seq<Chunk>, abs: map<(nat, Path), nat>, ret: map<Path, nat>, clients: seq<Client>,
                list: seq<Stored>)
    requires Covered(cs, abs, ret, clients, list) && forall p | p in ret :: ComesBack(cs, list, p, ret[p])
    requires forall p | p in RetOf(cs, list) ::
               exists q :: q in ret && Goes(list, ret[q]) && ret[q] == RetOf(cs, list)[p]
    ensures RetOf(cs, list) == ret
  {
    hide FullPath, TopThere, Tokens, MessageAt, OfSys, RetOf, Covered, Concerns, Goes;
    var r := RetOf(cs, list);
    forall p | p in ret ensures p in r {
      var i: nat :| i < |cs| && cs[i] == RetainChunk(ret[p]) && Concerns(cs, list, i, p);
      PutStays(cs, abs, ret, clients, list, i, p);
    }
    forall p | p in r ensures p in ret && ret[p] == r[p] {
      RetOfNamed(cs, list, p);
      var q :| q in ret && Goes(list, ret[q]) && ret[q] == r[p];
      assert ComesBack(cs, list, q, ret[q]);
    }
  }

  lemma AllComeBack(cs: seq<Chunk>, list: seq<Stored>, ret: map<Path, nat>)
    requires RetOf(cs, list) == ret && forall p | p in ret :: Goes(list, ret[p])
    ensures forall p | p in ret :: ComesBack(cs, list, p, ret[p])
  {
    hide FullPath, TopThere, Tokens, MessageAt, OfSys, RetOf;
    forall p | p in ret ensures ComesBack(cs, list, p, ret[p]) {
      RetOfNamed(cs, list, p);
      RetOfIsLast(cs, list, p, ret[p]);
      var i: nat :| LastPut(cs, list, i, p, ret[p]);
      assert cs[i] == RetainChunk(ret[p]);
    }
  }

  lemma IsSub(clients: seq<Client>)
    ensures forall leaf: Leaf, filter | leaf.client < |clients| && OneByteEach(filter) && leaf.qos < 256 ::
              SubChunkOf(clients, leaf, filter).SubChunk?
  {
  }

  /** Where no message is empty, what was put up under a topic is there at the end, or another one is. */
  lemma PutStays(cs: seq<Chunk>, abs: map<(nat, Path), nat>, ret: map<Path, nat>, clients: seq<Client>,
                 list: seq<Stored>, i: nat, p: Path)
    requires Covered(cs, abs, ret, clients, list) && (forall q | q in ret :: ComesBack(cs, list, q, ret[q]))
    requires Concerns(cs, list, i, p)
    ensures p in RetOf(cs, list)
    decreases |cs| - i
  {
    hide FullPath, TopThere, Tokens, MessageAt, OfSys, RetOf, Full, FilterAt, SubChunkOf, OneByteEach;
    if j: nat :| i < j < |cs| && Concerns(cs, list, j, p) {
      PutStays(cs, abs, ret, clients, list, j, p);
    } else {
      assert Stems(cs[i], abs, ret, clients, list);
      IsSub(clients);
      var q :| q in ret && Goes(list, ret[q]) && cs[i] == RetainChunk(ret[q]);
      assert ComesBack(cs, list, q, ret[q]);
      assert LastPut(cs, list, i, p, ret[q]);
      RetOfIsLast(cs, list, p, ret[q]);
    }
  }

  // ----- stored messages -----

  /** A message is there as long as a queue or a node holds it, or no chunk has named it. */
  predicate Stays(cs: seq<Chunk>, list: seq<Stored>, sessions: seq<Session>, m: nat) {
    QueueRefs(sessions, m) > 0 || RetainChunk(m) !in cs || m in RetOf(cs, list).Values
  }

  /** Whenever a chunk names a message, it is there. */
  predicate AllThere(cs: seq<Chunk>, list: seq<Stored>, sessions: seq<Session>) {
    forall j {:trigger cs[..j]} | 0 <= j < |cs| && cs[j].RetainChunk? :: Stays(cs[..j], list, sessions, cs[j].store)
  }

  /** Nothing is missed if every message that is named twice is held by a queue. */
  lemma AllThereUnlessTwice(cs: seq<Chunk>, list: seq<Stored>, sessions: seq<Session>)
    requires forall m: nat | Twice(cs, m) :: QueueRefs(sessions, m) > 0
    ensures AllThere(cs, list, sessions)
  {
    hide RetOf, QueueRefs;
    forall j | 0 <= j < |cs| && cs[j].RetainChunk? ensures Stays(cs[..j], list, sessions, cs[j].store) {
      if RetainChunk(cs[j].store) in cs[..j] {
        var i: nat :| i < j && cs[..j][i] == RetainChunk(cs[j].store);
        assert cs[i] == cs[j] == RetainChunk(cs[j].store);
      }
    }
  }

  /**
    A message that is not marked as retained, and that no queue holds, is gone when it is named for the second time.
  */
  lemma UnmarkedTwice(cs: seq<Chunk>, list: seq<Stored>, sessions: seq<Session>, m: nat)
    requires Twice(cs, m) && QueueRefs(sessions, m) == 0 && MessageAt(list, m).Some? && !MessageAt(list, m).value.retain
    ensures !AllThere(cs, list, sessions)
  {
    hide RetOf, QueueRefs, MessageAt;
    var i: nat, j: nat :| i < j < |cs| && cs[i] == RetainChunk(m) && cs[j] == RetainChunk(m);
    assert cs[..j][i] == cs[i];
    if m in RetOf(cs[..j], list).Values {
      var p :| p in RetOf(cs[..j], list) && RetOf(cs[..j], list)[p] == m;
      RetOfNamed(cs[..j], list, p);
    }
    assert !Stays(cs[..j], list, sessions, m);
  }

  /** What the chunks `cs` have made of `start`. */
  ghost predicate BuiltUp(im: Image, start: Image, cs: seq<Chunk>, abs: map<(nat, Path), nat>, clients: seq<Client>,
                          list: seq<Stored>) {
    && im == start.(abs := im.abs, ret := RetOf(cs, list), store := im.store, refs := im.refs)
    && Balanced(im) && BuiltSubs(im, cs, abs, clients)
    && (forall t: string :: HasTop(im.abs, t) <==> TopThere(cs, t))
    && (forall m :: m in im.store <==> m in start.store && Stays(cs, list, start.sessions, m))
    && (forall m | m in im.store :: im.store[m] == start.store[m])
  }

  /** What the tree chunks need: the sessions of their clients, and the messages that they name. */
  ghost predicate Ready(start: Image, ret: map<Path, nat>, clients: seq<Client>, list: seq<Stored>) {
    && start.sessions == Saved(clients) && ClientsFit(clients) && Balanced(start)
    && start.abs == map[] && start.ret == map[] && start.load == start.store.Keys
    && forall p | p in ret && Goes(list, ret[p]) ::
         && ret[p] in start.store && MessageAt(list, ret[p]).value.topic.Some?
         && start.store[ret[p]] == MessageAt(list, ret[p]).value
  }

  lemma NothingBuilt(start: Image, abs: map<(nat, Path), nat>, ret: map<Path, nat>, clients: seq<Client>,
                     list: seq<Stored>)
    requires Ready(start, ret, clients, list)
    ensures BuiltUp(start, start, [], abs, clients, list)
  {
    hide Balanced, ClientsFit;
  }

  lemma SubsStill(im: Image, im': Image, cs: seq<Chunk>, c: Chunk, abs: map<(nat, Path), nat>, clients: seq<Client>)
    requires BuiltSubs(im, cs, abs, clients) && im'.abs == im.abs && c.RetainChunk?
    ensures BuiltSubs(im', cs + [c], abs, clients)
  {
    hide Full, FilterAt, IndexOf, Saved;
  }

  lemma OneMore(cs: seq<Chunk>, c: Chunk, list: seq<Stored>)
    ensures (cs + [c])[..|cs|] == cs && (cs + [c])[|cs|] == c
    ensures forall x :: x in cs + [c] <==> x in cs || x == c
    ensures forall t :: TopThere(cs + [c], t) <==> TopThere(cs, t) || Opens(c, t)
    ensures !c.RetainChunk? ==> RetOf(cs + [c], list) == RetOf(cs, list)
  {
    hide Opens;
    forall t ensures TopThere(cs + [c], t) <==> TopThere(cs, t) || Opens(c, t) {
      if i :| 0 <= i < |cs| && Opens(cs[i], t) { assert (cs + [c])[i] == cs[i]; }
      if Opens(c, t) { assert (cs + [c])[|cs|] == c; }
    }
  }

  lemma ApplySub(im: Image, start: Image, cs: seq<Chunk>, abs: map<(nat, Path), nat>, ret: map<Path, nat>,
                 clients: seq<Client>, list: seq<Stored>, k: (nat, Path))
    requires Ready(start, ret, clients, list) && BuiltUp(im, start, cs, abs, clients, list)
    requires k in abs && k.0 < |clients| && clients[k.0].persistent && abs[k] < 256 && Full(k.1)
             && OneByteEach(FilterAt(k.1))
    ensures var c := SubChunkOf(clients, Leaf(k.0, abs[k]), FilterAt(k.1));
            var r := Apply(im, c);
            r.Done? && BuiltUp(r.im, start, cs + [c], abs, clients, list)
  {
    hide BuiltSubs, Balanced, QueueRefs, RetOf, TopThere, HasTop;
    var filter := FilterAt(k.1);
    var c := SubChunkOf(clients, Leaf(k.0, abs[k]), filter);
    SavedHas(clients, k.0);
    NoNul(clients[k.0].session.id);
    TextBack(filter);
    FilterAtPath(k.1);
    SubBuilt(im, cs, abs, clients, k);
    StaysBalanced(im, c);
    OneMore(cs, c, list);
    TopAdded(im.abs, (NewIndex(clients, k.0), k.1), abs[k], filter);
    var r := im.(abs := im.abs[(NewIndex(clients, k.0), k.1) := abs[k]]);
    assert Apply(im, c) == Done(r);
    hide Apply, SubChunkOf, Opens, Ready, Goes;
    assert forall t: string :: HasTop(r.abs, t) <==> TopThere(cs + [c], t);
    assert forall m :: Stays(cs + [c], list, start.sessions, m) <==> Stays(cs, list, start.sessions, m);
  }

  lemma ApplyRetain(im: Image, start: Image, cs: seq<Chunk>, abs: map<(nat, Path), nat>, ret: map<Path, nat>,
                    clients: seq<Client>, list: seq<Stored>, p: Path)
    requires Ready(start, ret, clients, list) && BuiltUp(im, start, cs, abs, clients, list)
             && p in ret && Goes(list, ret[p])
    ensures if Stays(cs, list, start.sessions, ret[p])
            then ret[p] in im.store && im.store[ret[p]].topic.Some?
                 && Apply(im, RetainChunk(ret[p])) == Done(Requeue(im, ret[p]))
                 && BuiltUp(Requeue(im, ret[p]), start, cs + [RetainChunk(ret[p])], abs, clients, list)
            else Apply(im, RetainChunk(ret[p])) == Crashed
  {
    hide BuiltSubs, Balanced, QueueRefs, TopThere, HasTop, RetainIf, Requeue, ClientsFit, Saved, OfSys, RetOf, Stays;
    var m := ret[p];
    assert m in start.store && m in im.load;
    assert m in im.store <==> Stays(cs, list, start.sessions, m);
    if m in im.store {
      ApplyNamed(im, start, cs, abs, ret, clients, list, p);
      hide BuiltUp;
    }
  }

  lemma ApplyNamed(im: Image, start: Image, cs: seq<Chunk>, abs: map<(nat, Path), nat>, ret: map<Path, nat>,
                   clients: seq<Client>, list: seq<Stored>, p: Path)
    requires Ready(start, ret, clients, list) && BuiltUp(im, start, cs, abs, clients, list)
             && p in ret && Goes(list, ret[p]) && ret[p] in im.store
    ensures im.store[ret[p]].topic.Some?
            && BuiltUp(Requeue(im, ret[p]), start, cs + [RetainChunk(ret[p])], abs, clients, list)
  {
    hide BuiltSubs, Balanced, QueueRefs, TopThere, HasTop, RetainIf, Requeue, ClientsFit, Saved, OfSys;
    var m, c := ret[p], RetainChunk(ret[p]);
    OneMore(cs, c, list);
    Requeued(im, m);
    var r := Requeue(im, m);
    SubsStill(im, r, cs, c, abs, clients);
    assert r.ret == RetOf(cs + [c], list);
    hide RetOf;
    forall x | x in RetOf(cs, list).Values ensures RetainChunk(x) in cs {
      var q :| q in RetOf(cs, list) && RetOf(cs, list)[q] == x;
      RetOfNamed(cs, list, q);
    }
    RetStored(r);
  }

  lemma RetStored(im: Image)
    requires Balanced(im)
    ensures forall x | x in im.ret.Values :: x in im.store
  {
    hide QueueRefs, FullPath;
  }

  /** The chunks of the tree are taken to their end just when whatever they name is there, and crash otherwise. */
  lemma {:induction false} FoldTree(start: Image, cs: seq<Chunk>, abs: map<(nat, Path), nat>, ret: map<Path, nat>,
                                    clients: seq<Client>, list: seq<Stored>)
    requires Ready(start, ret, clients, list)
    requires forall i | 0 <= i < |cs| :: Stems(cs[i], abs, ret, clients, list)
    ensures var t := Fold(start, cs);
            if AllThere(cs, list, start.sessions) then t.Done? && BuiltUp(t.im, start, cs, abs, clients, list)
            else t == Crashed
  {
    hide Apply, Full, FilterAt, Ready, BuiltUp, OneByteEach, SubChunkOf, Goes, Stays;
    if cs == [] {
      NothingBuilt(start, abs, ret, clients, list);
    } else {
      var n := |cs| - 1;
      FoldTree(start, cs[..n], abs, ret, clients, list);
      AllThereBefore(cs, list, start.sessions);
      var before := Fold(start, cs[..n]);
      assert cs == cs[..n] + [cs[n]] && Stems(cs[n], abs, ret, clients, list);
      if before.Done? {
        if k: (nat, Path) :| k in abs && k.0 < |clients| && clients[k.0].persistent && abs[k] < 256 && Full(k.1)
                             && OneByteEach(FilterAt(k.1))
                             && cs[n] == SubChunkOf(clients, Leaf(k.0, abs[k]), FilterAt(k.1)) {
          IsSub(clients);
          ApplySub(before.im, start, cs[..n], abs, ret, clients, list, k);
        } else {
          var p :| p in ret && Goes(list, ret[p]) && cs[n] == RetainChunk(ret[p]);
          ApplyRetain(before.im, start, cs[..n], abs, ret, clients, list, p);
        }
      }
    }
  }

  lemma AllThereBefore(cs: seq<Chunk>, list: seq<Stored>, sessions: seq<Session>)
    requires cs != []
    ensures var n := |cs| - 1;
            AllThere(cs, list, sessions) <==>
                  AllThere(cs[..n], list, sessions)
                  && (cs[n].RetainChunk? ==> Stays(cs[..n], list, sessions, cs[n].store))
  {
    hide Stays;
    var n := |cs| - 1;
    assert forall j | 0 <= j < n :: cs[..n][..j] == cs[..j];
  }

  /** All chunks together give back the subscriptions of the saved clients. */
  lemma AllBuiltUp(im: Image, start: Image, cs: seq<Chunk>, abs: map<(nat, Path), nat>, ret: map<Path, nat>,
                   clients: seq<Client>, list: seq<Stored>)
    requires BuiltUp(im, start, cs, abs, clients, list) && SubsFit(abs, clients)
    requires forall i, j | 0 <= i < j < |clients| :: clients[i].session.id != clients[j].session.id
    requires Covered(cs, abs, ret, clients, list)
    ensures Renamed(abs, clients, im.abs)
  {
    hide NewIndex, SubChunkOf, FilterAt, Full, OneByteEach, ValidFilter, Stems, Goes, Balanced, RetOf, Stays, HasTop,
         TopThere;
    forall c, p | (c, p) in abs && c < |clients| && clients[c].persistent
      ensures (NewIndex(clients, c), p) in im.abs && im.abs[(NewIndex(clients, c), p)] == abs[(c, p)]
    {
      var k := (c, p);
      assert k in abs;
      SubBack(im, cs, abs, clients, c, p);
    }
  }
}
