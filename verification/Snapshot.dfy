/** What a persistence file stands for: the state that its chunks, taken one after the other, build up. */
module Snapshot {
  import opened Wrappers
  import opened Topics
  import opened Tree
  import opened Wire
  import opened Archive

  datatype Message = Message(sourceId: bytes, sourceMid: nat, topic: Option<string>, qos: byte, retain: bool,
                             payload: bytes)

  datatype Queued = Queued(store: nat, mid: nat, qos: byte, retain: byte, direction: byte, state: byte, dup: byte)

  /** A persistent session. */
  datatype Session = Session(id: bytes, lastMid: nat, msgs: seq<Queued>)

  /**
    Sessions, stored messages by id with their reference counts, the ids that the file has named so far, subscriptions
    with their QoS, and retained messages.
  */
  datatype Image = Image(sessions: seq<Session>, store: map<nat, Message>, refs: map<nat, nat>, load: set<nat>,
                         lastId: nat, abs: map<(nat, Path), nat>, ret: map<Path, nat>)

  const EMPTY := Image([], map[], map[], {}, 0, map[], map[])

  /** What comes of taking chunks: a state, an error, or the use of a message that has been freed. */
  datatype Taken = Done(im: Image) | Corrupt | Crashed

  // ----- sessions by their id -----

  /** The position of a session, or the number of sessions. */
  function IndexOf(sessions: seq<Session>, id: bytes): (i: nat)
    ensures i <= |sessions|
    ensures i < |sessions| ==> sessions[i].id == id
    ensures forall j | 0 <= j < i :: sessions[j].id != id
  {
    if sessions == [] then 0 else if sessions[0].id == id then 0 else 1 + IndexOf(sessions[1..], id)
  }

  /** `_db_find_or_add_context`. */
  function FindOrAdd(sessions: seq<Session>, id: bytes, lastMid: nat): (r: seq<Session>)
    ensures IndexOf(sessions, id) < |r|
  {
    var i := IndexOf(sessions, id);
    var r := if i < |sessions| then sessions else sessions + [Session(id, 0, [])];
    if lastMid == 0 then r else r[i := r[i].(lastMid := lastMid)]
  }

  predicate DistinctIds(sessions: seq<Session>) {
    forall i, j | 0 <= i < j < |sessions| :: sessions[i].id != sessions[j].id
  }

  lemma IndexOfId(sessions: seq<Session>, i: nat)
    requires DistinctIds(sessions) && i < |sessions|
    ensures IndexOf(sessions, sessions[i].id) == i
  {
  }

  // ----- one chunk -----

  function NoneIfEmpty(s: bytes): Option<string> {
    if s == [] then None else Some(Text(CString(s)))
  }

  /** The tops of a restored tree: the two that it begins with, and those of restored subscriptions. */
  predicate HasTop(abs: map<(nat, Path), nat>, top: string) {
    top == "" || top == "$SYS" || exists k :: k in abs && IsUnder(k.1, top)
  }

  predicate IsUnder(p: Path, top: string) {
    Labels(p) != [] && Labels(p)[0] == top
  }

  lemma TopAdded(abs: map<(nat, Path), nat>, k: (nat, Path), qos: nat, filter: string)
    requires k.1 == FullPath(filter)
    ensures forall t: string :: HasTop(abs[k := qos], t) <==> HasTop(abs, t) || t == Tokens(filter)[0]
  {
    FullPathLabels(filter);
    assert IsUnder(k.1, Tokens(filter)[0]);
    forall t: string ensures HasTop(abs[k := qos], t) <==> HasTop(abs, t) || t == Tokens(filter)[0] {
      if j: (nat, Path) :| j in abs && IsUnder(j.1, t) {
        assert j in abs[k := qos];
      }
      if t == Tokens(filter)[0] {
        assert k in abs[k := qos] && IsUnder(k.1, t);
      }
    }
  }

  /**
    The retained messages after one has been queued again, in a tree that has the top of its topic or has not; what is
    not marked as retained changes nothing.
  */
  function RetainIf(ret: map<Path, nat>, there: bool, m: Message, id: nat): map<Path, nat>
    requires m.topic.Some?
  {
    if !m.retain || !there then ret
    else if m.payload != [] then ret[FullPath(m.topic.value) := id]
    else ret - {FullPath(m.topic.value)}
  }

  /** One reference more, and one less; a message without references is freed. */
  function Ref(im: Image, m: nat): Image {
    im.(refs := im.refs[m := (if m in im.refs then im.refs[m] else 0) + 1])
  }

  function Deref(im: Image, m: nat): Image {
    if m in im.refs && im.refs[m] > 1 then im.(refs := im.refs[m := im.refs[m] - 1])
    else im.(store := im.store - {m}, refs := im.refs - {m})
  }

  /** A message takes the place of the one that was retained under its topic. */
  function Put(im: Image, p: Path, message: Option<nat>): Image {
    var im1 := if p in im.ret then Deref(im, im.ret[p]) else im;
    if message.Some? then Ref(im1, message.value).(ret := im1.ret[p := message.value])
    else im1.(ret := im1.ret - {p})
  }

  /** What becomes of the retained messages when a stored one is queued again. */
  function PutAgain(im: Image, id: nat): Image
    requires id in im.store && im.store[id].topic.Some?
  {
    var m := im.store[id];
    if m.retain && HasTop(im.abs, Tokens(m.topic.value)[0])
    then Put(im, FullPath(m.topic.value), if m.payload != [] then Some(id) else None) else im
  }

  /** A stored message is queued again; meanwhile there is a reference to it. */
  function Requeue(im: Image, id: nat): Image
    requires id in im.store && im.store[id].topic.Some?
  {
    Deref(PutAgain(Ref(im, id), id), id)
  }

  function Apply(im: Image, c: Chunk): Taken {
    match c
    case Config(_, lastId) => Done(im.(lastId := lastId))
    case StoreChunk(id, sourceId, sourceMid, _, topic, qos, retain, payload) =>
      var m := Message(CString(sourceId), sourceMid, NoneIfEmpty(topic), qos, retain != 0, payload);
      var n := if id == 0 then im.lastId + 1 else id;
      Done(im.(store := im.store[n := m], refs := im.refs[n := 0], load := im.load + {n},
               lastId := if id == 0 then n else im.lastId))
    case ClientChunk(client, lastMid, _) => Done(im.(sessions := FindOrAdd(im.sessions, CString(client), lastMid)))
    case MsgChunk(client, store, mid, qos, retain, direction, state, dup) =>
      if store !in im.load then Corrupt
      else if store !in im.store then Crashed
      else Done(Ref(im, store).(sessions := WithEntry(im.sessions, CString(client),
                                                      Queued(store, mid, qos, retain, direction, state, dup))))
    case SubChunk(client, topic, qos) =>
      Done(im.(sessions := FindOrAdd(im.sessions, CString(client), 0),
               abs := im.abs[(IndexOf(im.sessions, CString(client)), FullPath(Text(CString(topic)))) := qos as int]))
    case RetainChunk(store) =>
      if store !in im.load then Corrupt
      else if store !in im.store || im.store[store].topic.None? then Crashed
      else Done(Requeue(im, store))
  }

  /** The sessions with an entry more at the end of a queue. */
  function WithEntry(sessions: seq<Session>, id: bytes, q: Queued): seq<Session> {
    var r, i := FindOrAdd(sessions, id, 0), IndexOf(sessions, id);
    r[i := r[i].(msgs := r[i].msgs + [q])]
  }

  function Fold(im: Image, cs: seq<Chunk>): Taken {
    if cs == [] then Done(im)
    else
      var before := Fold(im, cs[..|cs| - 1]);
      if before.Done? then Apply(before.im, cs[|cs| - 1]) else before
  }

  lemma {:induction false} FoldAppend(im: Image, a: seq<Chunk>, b: seq<Chunk>)
    ensures Fold(im, a + b) == if Fold(im, a).Done? then Fold(Fold(im, a).im, b) else Fold(im, a)
  {
    hide Apply;
    if b == [] {
      assert a + b == a;
    } else {
      assert (a + b)[..|a + b| - 1] == a + b[..|b| - 1];
      FoldAppend(im, a, b[..|b| - 1]);
    }
  }

  lemma FoldNone(im: Image)
    ensures Fold(im, []) == Done(im)
  {
  }

  lemma FoldOne(im: Image, c: Chunk)
    ensures Fold(im, [c]) == Apply(im, c)
  {
    assert [c][..0] == [];
  }

  // ----- reference counts -----

  function RefsIn(msgs: seq<Queued>, m: nat): nat {
    if msgs == [] then 0 else RefsIn(msgs[..|msgs| - 1], m) + if msgs[|msgs| - 1].store == m then 1 else 0
  }

  /** The queue entries that point at a message. */
  function QueueRefs(sessions: seq<Session>, m: nat): nat {
    if sessions == [] then 0
    else QueueRefs(sessions[..|sessions| - 1], m) + RefsIn(sessions[|sessions| - 1].msgs, m)
  }

  /** The nodes that point at a message; it can only be that of its own topic. */
  function Held(ret: map<Path, nat>, m: nat): nat {
    if m in ret.Values then 1 else 0
  }

  /**
    Every message counts the queue entries and the node that point at it; nothing points at a message that is gone; and
    every retained message stands under its own topic.
  */
  ghost predicate Balanced(im: Image) {
    BalancedBut(im, None)
  }

  /** The same while a message is protected by a reference of its own. */
  ghost predicate BalancedBut(im: Image, guard: Option<nat>) {
    && im.refs.Keys == im.store.Keys <= im.load
    && (forall m | m in im.store ::
          im.refs[m] == QueueRefs(im.sessions, m) + Held(im.ret, m) + if guard == Some(m) then 1 else 0)
    && (forall m: nat | m !in im.store :: QueueRefs(im.sessions, m) == 0)
    && (forall p | p in im.ret ::
          im.ret[p] in im.store && im.store[im.ret[p]].topic.Some? && FullPath(im.store[im.ret[p]].topic.value) == p)
  }

  lemma {:induction false} QueueRefsSame(sessions: seq<Session>, i: nat, s: Session, m: nat)
    requires i < |sessions|
    ensures QueueRefs(sessions[i := s], m) + RefsIn(sessions[i].msgs, m) == QueueRefs(sessions, m) + RefsIn(s.msgs, m)
  {
    var n := |sessions| - 1;
    if i == n {
      assert sessions[i := s][..n] == sessions[..n];
    } else {
      assert sessions[i := s][..n] == sessions[..n][i := s];
      QueueRefsSame(sessions[..n], i, s, m);
    }
  }

  lemma RefsOneMore(msgs: seq<Queued>, q: Queued, m: nat)
    ensures RefsIn(msgs + [q], m) == RefsIn(msgs, m) + if q.store == m then 1 else 0
  {
    assert (msgs + [q])[..|msgs|] == msgs;
  }

  lemma QueueRefsAdded(sessions: seq<Session>, id: bytes, lastMid: nat, m: nat)
    ensures QueueRefs(FindOrAdd(sessions, id, lastMid), m) == QueueRefs(sessions, m)
  {
    var i, r := IndexOf(sessions, id), FindOrAdd(sessions, id, lastMid);
    if i == |sessions| {
      var more := sessions + [Session(id, 0, [])];
      assert more[..|sessions|] == sessions;
      if lastMid != 0 { QueueRefsSame(more, i, more[i].(lastMid := lastMid), m); }
    } else if lastMid != 0 {
      QueueRefsSame(sessions, i, sessions[i].(lastMid := lastMid), m);
    }
  }

  lemma QueueRefsEntry(sessions: seq<Session>, id: bytes, q: Queued, m: nat)
    ensures QueueRefs(WithEntry(sessions, id, q), m) == QueueRefs(sessions, m) + if q.store == m then 1 else 0
  {
    hide FindOrAdd;
    var r, i := FindOrAdd(sessions, id, 0), IndexOf(sessions, id);
    QueueRefsAdded(sessions, id, 0, m);
    QueueRefsSame(r, i, r[i].(msgs := r[i].msgs + [q]), m);
    RefsOneMore(r[i].msgs, q, m);
  }

  lemma Guarded(im: Image, id: nat)
    requires Balanced(im) && id in im.store
    ensures var r := Ref(im, id);
            BalancedBut(r, Some(id)) && r == im.(refs := r.refs)
  {
    hide QueueRefs, FullPath;
  }

  lemma Unguarded(im: Image, id: nat)
    requires BalancedBut(im, Some(id)) && id in im.store
    ensures var r := Deref(im, id);
            && Balanced(r) && r == im.(store := r.store, refs := r.refs)
            && r.store == if QueueRefs(im.sessions, id) > 0 || id in im.ret.Values then im.store else im.store - {id}
  {
    hide QueueRefs, FullPath, Held;
    HeldOnce(im.ret, id);
  }

  lemma HeldOnce(ret: map<Path, nat>, m: nat)
    ensures Held(ret, m) == if m in ret.Values then 1 else 0
  {
  }

  /** The message that was retained under a topic goes, unless a queue or a guard holds it. */
  lemma Dropped(im: Image, id: nat, p: Path)
    requires BalancedBut(im, Some(id)) && p in im.ret
    ensures var r := Deref(im, im.ret[p]).(ret := im.ret - {p});
            && BalancedBut(r, Some(id)) && r == im.(ret := r.ret, store := r.store, refs := r.refs)
            && r.store == if im.ret[p] != id && QueueRefs(im.sessions, im.ret[p]) == 0 then im.store - {im.ret[p]}
                          else im.store
  {
    hide QueueRefs, FullPath, Held;
    assert forall q | q in im.ret && im.ret[q] == im.ret[p] :: q == p;
    HeldWithout(im.ret, p);
  }

  lemma HeldWithout(ret: map<Path, nat>, p: Path)
    requires p in ret && forall q | q in ret && ret[q] == ret[p] :: q == p
    ensures forall m :: Held(ret - {p}, m) == if m == ret[p] then 0 else Held(ret, m)
    ensures Held(ret, ret[p]) == 1
  {
    ValuesAfter(ret, p, 0);
  }

  lemma PutUp(im: Image, id: nat)
    requires BalancedBut(im, Some(id)) && id in im.store && im.store[id].topic.Some?
             && FullPath(im.store[id].topic.value) !in im.ret
    ensures BalancedBut(Ref(im, id).(ret := im.ret[FullPath(im.store[id].topic.value) := id]), Some(id))
  {
    hide QueueRefs, FullPath;
    ValuesAfter(im.ret, FullPath(im.store[id].topic.value), id);
  }

  /** A message, or none, takes its place while it is protected. The one that was there goes unless a queue holds it. */
  lemma Displaced(im: Image, id: nat, message: Option<nat>)
    requires BalancedBut(im, Some(id)) && id in im.store && im.store[id].topic.Some?
             && (message.Some? ==> message.value == id)
    ensures var p := FullPath(im.store[id].topic.value);
            var r := Put(im, p, message);
            && BalancedBut(r, Some(id)) && r == im.(ret := r.ret, store := r.store, refs := r.refs)
            && r.ret == (if message.Some? then im.ret[p := id] else im.ret - {p})
            && r.store == if p in im.ret && im.ret[p] != id && QueueRefs(im.sessions, im.ret[p]) == 0
                          then im.store - {im.ret[p]} else im.store
  {
    hide QueueRefs, FullPath, BalancedBut, Deref;
    var p := FullPath(im.store[id].topic.value);
    var im1 := if p in im.ret then Deref(im, im.ret[p]).(ret := im.ret - {p}) else im;
    if p in im.ret {
      Dropped(im, id, p);
    } else {
      assert im.ret - {p} == im.ret;
    }
    assert (im.ret - {p})[p := id] == im.ret[p := id];
    DerefRet(im);
    if message.Some? { PutUp(im1, id); }
  }

  lemma DerefRet(im: Image)
    ensures forall m :: Deref(im, m).ret == im.ret
  {
  }

  /** What a map points at after one of its keys has been given another value, or taken away. */
  lemma ValuesAfter(ret: map<Path, nat>, p: Path, id: nat)
    requires p in ret ==> forall q | q in ret && ret[q] == ret[p] :: q == p
    ensures forall x :: x in ret[p := id].Values <==> x == id || (x in ret.Values && !(p in ret && ret[p] == x))
    ensures forall x :: x in (ret - {p}).Values <==> x in ret.Values && !(p in ret && ret[p] == x)
  {
    var more, less := ret[p := id], ret - {p};
    assert p in more && more[p] == id;
    forall x | x in ret.Values && !(p in ret && ret[p] == x) ensures x in more.Values && x in less.Values {
      var q :| q in ret && ret[q] == x;
      assert q in more && more[q] == x && q in less && less[q] == x;
    }
  }

  lemma PutAgainGuarded(im: Image, id: nat)
    requires BalancedBut(im, Some(id)) && id in im.store && im.store[id].topic.Some?
    ensures var m, r := im.store[id], PutAgain(im, id);
            var p := FullPath(m.topic.value);
            && BalancedBut(r, Some(id)) && id in r.store && id in r.refs && r.refs[id] > 0
            && r == im.(ret := r.ret, store := r.store, refs := r.refs)
            && r.ret == RetainIf(im.ret, HasTop(im.abs, Tokens(m.topic.value)[0]), m, id)
            && r.store == if m.retain && HasTop(im.abs, Tokens(m.topic.value)[0]) && p in im.ret && im.ret[p] != id
                             && QueueRefs(im.sessions, im.ret[p]) == 0 then im.store - {im.ret[p]} else im.store
  {
    hide QueueRefs, FullPath, HasTop, Tokens, Ref, Deref, Put, BalancedBut;
    var m := im.store[id];
    if m.retain && HasTop(im.abs, Tokens(m.topic.value)[0]) {
      Displaced(im, id, if m.payload != [] then Some(id) else None);
    }
    GuardHolds(PutAgain(im, id), id);
  }

  lemma RetainedHeld(im: Image, id: nat, p: Path)
    requires BalancedBut(im, Some(id)) && id in im.store
    ensures id in im.refs && im.refs[id] > 0
    ensures p in im.ret ==> im.ret[p] in im.refs && im.refs[im.ret[p]] > if im.ret[p] == id then 1 else 0
  {
    hide QueueRefs, FullPath;
  }

  lemma GuardHolds(im: Image, id: nat)
    requires BalancedBut(im, Some(id)) && id in im.store
    ensures id in im.refs && im.refs[id] > 0
  {
    hide QueueRefs, FullPath;
  }

  lemma OwnPath(im: Image, id: nat)
    requires Balanced(im) && id in im.store && im.store[id].topic.Some?
    ensures var p := FullPath(im.store[id].topic.value);
            && (p in im.ret ==> forall q | q in im.ret && im.ret[q] == im.ret[p] :: q == p)
            && (id in im.ret.Values ==> p in im.ret && im.ret[p] == id)
  {
    hide QueueRefs, FullPath;
  }

  /**
    What queueing a message again comes to: the message itself, and the one that it displaces, stay if a queue or a node
    still holds them, and are freed otherwise.
  */
  lemma Requeued(im: Image, id: nat)
    requires Balanced(im) && id in im.store && im.store[id].topic.Some?
    ensures var r := Requeue(im, id);
            && r.ret == RetainIf(im.ret, HasTop(im.abs, Tokens(im.store[id].topic.value)[0]), im.store[id], id)
            && Balanced(r)
            && r == im.(ret := r.ret, store := r.store, refs := r.refs)
            && (forall x | x in r.store :: x in im.store && r.store[x] == im.store[x])
            && (forall x | x in im.store ::
                  x in r.store <==>
                        (x != id && x !in im.ret.Values) || QueueRefs(im.sessions, x) > 0 || x in r.ret.Values)
  {
    hide QueueRefs, FullPath, HasTop, Tokens, Ref, Deref, Put, BalancedBut;
    var m, im1 := im.store[id], Ref(im, id);
    Guarded(im, id);
    PutAgainGuarded(im1, id);
    Unguarded(PutAgain(im1, id), id);
    if m.retain && HasTop(im.abs, Tokens(m.topic.value)[0]) {
      OwnPath(im, id);
      ValuesAfter(im.ret, FullPath(m.topic.value), id);
    }
  }

  /** A chunk that stores a message names an id that was not used before. */
  predicate NewId(im: Image, c: Chunk) {
    c.StoreChunk? ==> (if c.id == 0 then im.lastId + 1 else c.id) !in im.load
  }

  lemma StaysBalanced(im: Image, c: Chunk)
    requires Balanced(im) && NewId(im, c)
    ensures Apply(im, c).Done? ==> Balanced(Apply(im, c).im)
  {
    hide QueueRefs, FullPath, CString, Text, FindOrAdd, WithEntry, Requeue;
    match c {
      case ClientChunk(client, lastMid, _) =>
        SameQueueRefs(im, CString(client), lastMid);
      case SubChunk(client, _, _) =>
        SameQueueRefs(im, CString(client), 0);
      case MsgChunk(client, store, mid, qos, retain, direction, state, dup) =>
        var q := Queued(store, mid, qos, retain, direction, state, dup);
        forall m: nat ensures QueueRefs(WithEntry(im.sessions, CString(client), q), m) == QueueRefs(im.sessions, m)
                              + if q.store == m then 1 else 0 {
          QueueRefsEntry(im.sessions, CString(client), q, m);
        }
      case RetainChunk(store) =>
        if store in im.store && im.store[store].topic.Some? { Requeued(im, store); }
      case _ =>
    }
  }

  lemma SameQueueRefs(im: Image, id: bytes, lastMid: nat)
    requires Balanced(im)
    ensures Balanced(im.(sessions := FindOrAdd(im.sessions, id, lastMid)))
  {
    hide QueueRefs, FullPath, FindOrAdd;
    forall m: nat ensures QueueRefs(FindOrAdd(im.sessions, id, lastMid), m) == QueueRefs(im.sessions, m) {
      QueueRefsAdded(im.sessions, id, lastMid, m);
    }
  }

  // ----- the stored messages -----

  datatype Stored = Stored(id: nat, mid: nat, refCount: int, destCount: nat, message: Message)

  predicate StartsWith(s: string, prefix: string) {
    |prefix| <= |s| && s[..|prefix|] == prefix
  }

  predicate OfSys(m: Message) {
    m.topic.Some? && StartsWith(m.topic.value, "$SYS")
  }

  /** The messages of the broker itself are left out unless somebody waits for them, and never written as retained. */
  predicate Written(s: Stored) {
    !(OfSys(s.message) && s.refCount <= 1 && s.destCount == 0)
  }

  predicate StringsFit(m: Message) {
    |m.sourceId| <= 65535 && 0 !in m.sourceId && |m.payload| < 4294000000
    && (m.topic.Some? ==> 0 < |m.topic.value| <= 65535 && OneByteEach(m.topic.value))
  }

  function StoreChunkOf(s: Stored): Chunk
    requires StringsFit(s.message)
  {
    var m := s.message;
    StoreChunk(s.id, m.sourceId, m.sourceMid, s.mid, if m.topic.Some? then BytesOf(m.topic.value) else [], m.qos,
               if m.retain && !OfSys(m) then 1 else 0, m.payload)
  }

  predicate StoreFits(list: seq<Stored>) {
    && (forall i | 0 <= i < |list| ::
          0 < list[i].id < TWO64 && list[i].mid < 65536 && list[i].message.sourceMid < 65536
          && StringsFit(list[i].message))
    && (forall i, j | 0 <= i < j < |list| :: list[i].id != list[j].id)
  }

  function StoreChunks(list: seq<Stored>): seq<Chunk>
    requires StoreFits(list)
  {
    if list == [] then []
    else StoreChunks(list[..|list| - 1]) + if Written(list[|list| - 1]) then [StoreChunkOf(list[|list| - 1])] else []
  }

  function AsRestored(m: Message): Message {
    m.(retain := m.retain && !OfSys(m))
  }

  function StoreOf(list: seq<Stored>): map<nat, Message>
  {
    if list == [] then map[]
    else
      var s := list[|list| - 1];
      if Written(s) then StoreOf(list[..|list| - 1])[s.id := AsRestored(s.message)] else StoreOf(list[..|list| - 1])
  }

  lemma ApplyStore(im: Image, s: Stored)
    requires StringsFit(s.message) && s.id > 0
    ensures Apply(im, StoreChunkOf(s)) ==
            Done(im.(store := im.store[s.id := AsRestored(s.message)], refs := im.refs[s.id := 0],
                     load := im.load + {s.id}))
  {
    NoNul(s.message.sourceId);
    if s.message.topic.Some? { TextBack(s.message.topic.value); }
  }

  /** Nothing refers to the stored messages yet. */
  function Unused(store: map<nat, Message>): map<nat, nat> {
    map m | m in store :: 0
  }

  lemma {:induction false} FoldStore(im: Image, list: seq<Stored>)
    requires StoreFits(list) && im.store == map[] && im.refs == map[] && im.load == {}
    ensures var store := StoreOf(list);
            Fold(im, StoreChunks(list)) == Done(im.(store := store, refs := Unused(store), load := store.Keys))
  {
    hide Apply, StoreChunkOf, Written, AsRestored, StringsFit;
    if list != [] {
      var n := |list| - 1;
      var before := StoreOf(list[..n]);
      FoldStore(im, list[..n]);
      if Written(list[n]) {
        var im' := im.(store := before, refs := Unused(before), load := before.Keys);
        FoldAppend(im, StoreChunks(list[..n]), [StoreChunkOf(list[n])]);
        FoldOne(im', StoreChunkOf(list[n]));
        ApplyStore(im', list[n]);
        assert Unused(before)[list[n].id := 0] == Unused(StoreOf(list));
        assert before.Keys + {list[n].id} == StoreOf(list).Keys;
      } else {
        assert StoreChunks(list[..n]) + [] == StoreChunks(list[..n]);
      }
    }
  }

  lemma {:induction false} StoreOfKeys(list: seq<Stored>, i: nat)
    requires i < |list| && Written(list[i]) && forall a, b | 0 <= a < b < |list| :: list[a].id != list[b].id
    ensures list[i].id in StoreOf(list) && StoreOf(list)[list[i].id] == AsRestored(list[i].message)
  {
    if i < |list| - 1 {
      StoreOfKeys(list[..|list| - 1], i);
    }
  }

  // ----- the sessions and their queues -----

  /** A client of the broker; the sessions of those that are not persistent are not saved. */
  datatype Client = Client(persistent: bool, disconnected: nat, session: Session)

  predicate SessionFits(s: Session) {
    && 0 < |s.id| <= 65535 && 0 !in s.id && s.lastMid < 65536
    && forall i | 0 <= i < |s.msgs| :: s.msgs[i].store < TWO64 && s.msgs[i].mid < 65536
  }

  predicate ClientsFit(clients: seq<Client>) {
    && (forall i | 0 <= i < |clients| && clients[i].persistent ::
          SessionFits(clients[i].session) && clients[i].disconnected < TWO64)
    && (forall i, j | 0 <= i < j < |clients| :: clients[i].session.id != clients[j].session.id)
  }

  /** The messages of a queue are all in the store. */
  predicate Kept(msgs: seq<Queued>, store: map<nat, Message>) {
    forall i | 0 <= i < |msgs| :: msgs[i].store in store
  }

  predicate AllKept(clients: seq<Client>, store: map<nat, Message>) {
    forall i | 0 <= i < |clients| && clients[i].persistent :: Kept(clients[i].session.msgs, store)
  }

  function MsgChunkOf(id: bytes, q: Queued): Chunk {
    MsgChunk(id, q.store, q.mid, q.qos, q.retain, q.direction, q.state, q.dup)
  }

  function MsgChunks(id: bytes, msgs: seq<Queued>): seq<Chunk> {
    if msgs == [] then [] else MsgChunks(id, msgs[..|msgs| - 1]) + [MsgChunkOf(id, msgs[|msgs| - 1])]
  }

  function DisconnectTime(c: Client, now: nat): nat {
    if c.disconnected > 0 then c.disconnected else now
  }

  function ClientChunks(clients: seq<Client>, now: nat): seq<Chunk> {
    if clients == [] then []
    else
      var c := clients[|clients| - 1];
      ClientChunks(clients[..|clients| - 1], now)
      + if c.persistent then [ClientChunk(c.session.id, c.session.lastMid, DisconnectTime(c, now))]
          + MsgChunks(c.session.id, c.session.msgs) else []
  }

  /** The sessions that are saved. */
  function Saved(clients: seq<Client>): seq<Session> {
    if clients == [] then []
    else
      Saved(clients[..|clients| - 1])
      + if clients[|clients| - 1].persistent then [clients[|clients| - 1].session] else []
  }

  lemma {:induction false} SavedIds(clients: seq<Client>, k: nat)
    requires k < |Saved(clients)|
    ensures exists i :: 0 <= i < |clients| && clients[i].persistent && clients[i].session == Saved(clients)[k]
  {
    var n := |clients| - 1;
    if k < |Saved(clients[..n])| {
      SavedIds(clients[..n], k);
      var i :| 0 <= i < n && clients[..n][i].persistent && clients[..n][i].session == Saved(clients[..n])[k];
      assert clients[i].session == Saved(clients)[k];
    } else {
      assert clients[n].session == Saved(clients)[k];
    }
  }

  lemma {:induction false} SavedDistinct(clients: seq<Client>)
    requires forall i, j | 0 <= i < j < |clients| :: clients[i].session.id != clients[j].session.id
    ensures DistinctIds(Saved(clients))
  {
    if clients != [] {
      var n := |clients| - 1;
      SavedDistinct(clients[..n]);
      forall k | 0 <= k < |Saved(clients[..n])| ensures Saved(clients[..n])[k].id != clients[n].session.id {
        SavedIds(clients[..n], k);
      }
    }
  }

  /** Every client that is saved is found by its id. */
  lemma {:induction false} SavedHas(clients: seq<Client>, i: nat)
    requires i < |clients| && clients[i].persistent
    requires forall a, b | 0 <= a < b < |clients| :: clients[a].session.id != clients[b].session.id
    ensures IndexOf(Saved(clients), clients[i].session.id) < |Saved(clients)|
    ensures Saved(clients)[IndexOf(Saved(clients), clients[i].session.id)] == clients[i].session
  {
    var n := |clients| - 1;
    var before := Saved(clients[..n]);
    SavedDistinct(clients);
    if i < n {
      SavedHas(clients[..n], i);
      var k := IndexOf(before, clients[i].session.id);
      assert Saved(clients)[k] == clients[i].session;
      IndexOfId(Saved(clients), k);
    } else {
      assert Saved(clients)[|before|] == clients[i].session;
      IndexOfId(Saved(clients), |before|);
    }
  }

  /** Taking chunks has given `im` other sessions, and counted what points at the stored messages anew. */
  predicate Becomes(t: Taken, im: Image, sessions: seq<Session>) {
    t.Done? && t.im == im.(sessions := sessions, refs := t.im.refs)
  }

  lemma {:induction false} FoldMsgs(im: Image, msgs: seq<Queued>, id: bytes, i: nat)
    requires DistinctIds(im.sessions) && i < |im.sessions| && im.sessions[i].id == id && im.sessions[i].msgs == []
             && 0 !in id && im.load == im.store.Keys
    ensures if Kept(msgs, im.store)
            then Becomes(Fold(im, MsgChunks(id, msgs)), im, im.sessions[i := im.sessions[i].(msgs := msgs)])
            else Fold(im, MsgChunks(id, msgs)) == Corrupt
  {
    hide Apply, IndexOf;
    if msgs == [] {
      assert im.sessions[i := im.sessions[i].(msgs := [])] == im.sessions;
    } else {
      var n := |msgs| - 1;
      FoldMsgs(im, msgs[..n], id, i);
      assert msgs == msgs[..n] + [msgs[n]];
      assert Kept(msgs, im.store) <==> Kept(msgs[..n], im.store) && msgs[n].store in im.store;
      FoldAppend(im, MsgChunks(id, msgs[..n]), [MsgChunkOf(id, msgs[n])]);
      if Kept(msgs[..n], im.store) {
        var im' := Fold(im, MsgChunks(id, msgs[..n])).im;
        FoldOne(im', MsgChunkOf(id, msgs[n]));
        ApplyMsg(im', msgs[n], id, i);
        assert im'.sessions[i := im'.sessions[i].(msgs := msgs)] == im.sessions[i := im.sessions[i].(msgs := msgs)];
      }
    }
  }

  lemma ApplyMsg(im: Image, q: Queued, id: bytes, i: nat)
    requires DistinctIds(im.sessions) && i < |im.sessions| && im.sessions[i].id == id && 0 !in id
             && im.load == im.store.Keys
    ensures if q.store in im.store
            then Becomes(Apply(im, MsgChunkOf(id, q)), im,
                         im.sessions[i := im.sessions[i].(msgs := im.sessions[i].msgs + [q])])
            else Apply(im, MsgChunkOf(id, q)) == Corrupt
  {
    NoNul(id);
    IndexOfId(im.sessions, i);
  }

  /** The chunks of a client that is not there yet. */
  lemma FoldClient(im: Image, s: Session, disconnected: nat)
    requires DistinctIds(im.sessions) && (forall i | 0 <= i < |im.sessions| :: im.sessions[i].id != s.id) && 0 !in s.id
             && im.load == im.store.Keys
    ensures var t := Fold(im, [ClientChunk(s.id, s.lastMid, disconnected)] + MsgChunks(s.id, s.msgs));
            if Kept(s.msgs, im.store) then Becomes(t, im, im.sessions + [s]) else t == Corrupt
  {
    hide Fold, FindOrAdd;
    var head, k := ClientChunk(s.id, s.lastMid, disconnected), |im.sessions|;
    var added := im.(sessions := im.sessions + [Session(s.id, s.lastMid, [])]);
    NewSession(im.sessions, s.id, s.lastMid);
    NoNul(s.id);
    FoldOne(im, head);
    FoldMsgs(added, s.msgs, s.id, k);
    FoldAppend(im, [head], MsgChunks(s.id, s.msgs));
    assert added.sessions[k := added.sessions[k].(msgs := s.msgs)] == im.sessions + [s];
  }

  /** The sessions come back if every message that they wait for was saved, and nothing comes back if one was not. */
  lemma {:induction false} FoldClients(im: Image, clients: seq<Client>, now: nat)
    requires ClientsFit(clients) && im.sessions == [] && im.load == im.store.Keys
    ensures var t := Fold(im, ClientChunks(clients, now));
            if AllKept(clients, im.store) then Becomes(t, im, Saved(clients)) else t == Corrupt
  {
    hide Fold, StringsFit, DistinctIds;
    if clients == [] {
      FoldNone(im);
    } else {
      var n := |clients| - 1;
      FoldClients(im, clients[..n], now);
      SavedDistinct(clients[..n]);
      var c, s := clients[n], clients[n].session;
      KeptBefore(clients, im.store);
      if c.persistent {
        var head := ClientChunk(s.id, s.lastMid, DisconnectTime(c, now));
        FoldAppend(im, ClientChunks(clients[..n], now), [head] + MsgChunks(s.id, s.msgs));
        if AllKept(clients[..n], im.store) {
          var before := Fold(im, ClientChunks(clients[..n], now)).im;
          forall j | 0 <= j < |before.sessions| ensures before.sessions[j].id != s.id {
            SavedIds(clients[..n], j);
          }
          FoldClient(before, s, DisconnectTime(c, now));
        }
      } else {
        assert Saved(clients[..n]) + [] == Saved(clients[..n]);
        assert ClientChunks(clients[..n], now) + [] == ClientChunks(clients[..n], now);
      }
    }
  }

  lemma KeptBefore(clients: seq<Client>, store: map<nat, Message>)
    requires clients != []
    ensures var n := |clients| - 1;
            AllKept(clients, store) <==>
                  AllKept(clients[..n], store) && (clients[n].persistent ==> Kept(clients[n].session.msgs, store))
  {
    assert clients == clients[..|clients| - 1] + [clients[|clients| - 1]];
  }

  lemma NewSession(sessions: seq<Session>, id: bytes, lastMid: nat)
    requires forall i | 0 <= i < |sessions| :: sessions[i].id != id
    ensures FindOrAdd(sessions, id, lastMid) == sessions + [Session(id, lastMid, [])]
    ensures IndexOf(sessions, id) == |sessions|
  {
    assert lastMid != 0 ==>
          (sessions + [Session(id, 0, [])])[|sessions| := Session(id, lastMid, [])] == sessions
          + [Session(id, lastMid, [])];
  }
}
