/** Whole runs of the broker: clients come, go, subscribe and exchange messages in any order. */
module Runs {
  import opened Sequences
  import opened Wrappers
  import opened Topics
  import opened Tree
  import opened Search
  import opened Session
  import opened Phases
  import opened Accounts
  import opened Broker
  import opened Intake
  import opened Sessions

  datatype Event =
    | Appears
    | Connects(c: nat, clean: bool, will: Option<Will>)
    | Disconnects(c: nat, asked: bool, permitted: bool)
    | Subscribes(c: nat, mid: nat, filters: seq<(string, nat)>, mqtt311: bool, flags: nat)
    | Unsubscribes(c: nat, mid: nat, names: seq<string>, mqtt311: bool, flags: nat)
    | Publishes(c: nat, qos: nat, topic: string, mid: nat, payloadlen: nat, retain: bool, sizeLimit: nat,
                permitted: bool)
    | Acknowledges(c: nat, mid: nat)
    | Receives(c: nat, mid: nat)
    | Releases(c: nat, mid: nat, mqtt311: bool, flags: nat)
    | TimesOut(timeout: nat)
    | Writes(c: nat, budget: nat)

  /** An event of a client that the broker knows, with a QoS of two bits. */
  predicate Possible(e: Event, clients: nat) {
    match e
    case Appears => true
    case TimesOut(_) => true
    case Publishes(c, qos, _, _, _, _, _, _) => c < clients && qos <= 3
    case _ => e.c < clients
  }

  // ----- sessions and subscriptions, as the events alone make them -----

  /** Who is connected, who has a session of which kind, which wills are left, and what is subscribed to. */
  datatype World = World(peers: seq<Peer>, abs: map<(nat, Path), nat>)

  /**
    Only a CONNECT that starts afresh, or the end of the connection of a clean session, takes all subscriptions away.
  */
  function WorldAfter(w: World, e: Event): World
    requires Possible(e, |w.peers|)
  {
    match e
    case Appears => w.(peers := w.peers + [NOBODY.peer])
    case Connects(c, clean, will) =>
      if !WillOk(will) then w
      else World(w.peers[c := Peer(true, true, clean, will)],
                 if TakesOver(w.peers[c], clean) then w.abs else Without(w.abs, c))
    case Disconnects(c, _, _) =>
      World(w.peers[c := Gone(w.peers[c])],
            if w.peers[c].connected && w.peers[c].clean then Without(w.abs, c) else w.abs)
    case Subscribes(c, _, filters, mqtt311, flags) =>
      if mqtt311 && flags != 2 then w else w.(abs := WithFilters(w.abs, c, filters))
    case Unsubscribes(c, _, names, mqtt311, flags) =>
      if mqtt311 && flags != 2 then w else w.(abs := WithoutFilters(w.abs, c, names))
    case _ => w
  }

  predicate ValidWill(will: Option<Will>) {
    will.None? || (ValidTopic(will.value.topic) && |will.value.topic| <= 65535 && will.value.qos <= 2)
  }

  /** All events one after the other; those of unknown clients cannot happen. */
  function WorldAfterAll(events: seq<(Event, int)>): World {
    if events == [] then World([], map[])
    else
      var w, e := WorldAfterAll(events[..|events| - 1]), events[|events| - 1].0;
      if Possible(e, |w.peers|) then WorldAfter(w, e) else w
  }

  /** How many CONNECTs of client `c` leave a will, and how many wills the ends of its connections publish. */
  function WillsLeft(events: seq<(Event, int)>, c: nat): nat {
    if events == [] then 0
    else
      var e := events[|events| - 1].0;
      WillsLeft(events[..|events| - 1], c) + if e.Connects? && e.c == c && e.will.Some? then 1 else 0
  }

  function WillsSent(events: seq<(Event, int)>, c: nat): nat {
    if events == [] then 0
    else
      var before, e := WorldAfterAll(events[..|events| - 1]), events[|events| - 1].0;
      WillsSent(events[..|events| - 1], c)
      + if e.Disconnects? && e.c == c && c < |before.peers| && Wills(before.peers[c], e.asked, e.permitted) then 1
          else 0
  }

  /** Every will is published once at most. */
  lemma {:induction false} OneWillEach(events: seq<(Event, int)>, c: nat)
    ensures var peers := WorldAfterAll(events).peers;
            WillsSent(events, c) + (if c < |peers| && peers[c].will.Some? then 1 else 0) <= WillsLeft(events, c)
  {
    hide WithFilters, WithoutFilters, Without, WillOk;
    if events != [] {
      OneWillEach(events[..|events| - 1], c);
    }
  }

  /**
    An event after which client `c` has no subscription: a CONNECT that starts afresh, or the end of a clean session.
  */
  predicate StartsOver(w: World, e: Event, c: nat) {
    c < |w.peers|
    && match e
       case Connects(d, clean, will) => d == c && WillOk(will) && !TakesOver(w.peers[c], clean)
       case Disconnects(d, _, _) => d == c && w.peers[c].connected && w.peers[c].clean
       case _ => false
  }

  predicate Names(e: Event, c: nat, p: Path) {
    e.Subscribes? && e.c == c && exists i :: 0 <= i < |e.filters| && FullPath(e.filters[i].0) == p
  }

  /** Every subscription of a client was made in its present session. */
  ghost predicate MadeAt(events: seq<(Event, int)>, j: nat, c: nat, p: Path) {
    && j < |events| && Names(events[j].0, c, p)
    && forall k | j < k < |events| :: !StartsOver(WorldAfterAll(events[..k]), events[k].0, c)
  }

  lemma {:induction false} MadeInSession(events: seq<(Event, int)>, c: nat, p: Path)
    ensures (c, p) in WorldAfterAll(events).abs ==> exists j: nat :: MadeAt(events, j, c, p)
  {
    hide FullPath, WillOk, Names, WithFilters, WithoutFilters;
    if events != [] && (c, p) in WorldAfterAll(events).abs {
      var n, w := |events| - 1, WorldAfterAll(events[..|events| - 1]);
      var e := events[n].0;
      if e.Subscribes? {
        FilterNamed(w.abs, e.c, e.filters, c, p);
      } else if e.Unsubscribes? {
        NoneAdded(w.abs, e.c, e.names, (c, p));
      }
      if e.Subscribes? && (c, p) !in w.abs {
        assert Names(e, c, p) by { MadeHere(e, c, p); }
        assert MadeAt(events, n, c, p);
      } else {
        MadeInSession(events[..n], c, p);
        var j: nat :| MadeAt(events[..n], j, c, p);
        assert !StartsOver(w, e, c);
        MadeStill(events, j, c, p);
      }
    }
  }

  lemma MadeHere(e: Event, c: nat, p: Path)
    requires e.Subscribes? && e.c == c && exists i :: 0 <= i < |e.filters| && FullPath(e.filters[i].0) == p
    ensures Names(e, c, p)
  {
  }

  lemma MadeStill(events: seq<(Event, int)>, j: nat, c: nat, p: Path)
    requires events != [] && MadeAt(events[..|events| - 1], j, c, p)
             && !StartsOver(WorldAfterAll(events[..|events| - 1]), events[|events| - 1].0, c)
    ensures MadeAt(events, j, c, p)
  {
    hide WorldAfterAll, StartsOver, Names;
    var n := |events| - 1;
    forall k | j < k < |events| ensures !StartsOver(WorldAfterAll(events[..k]), events[k].0, c) {
      if k < n { assert events[..n][..k] == events[..k]; }
    }
  }

  lemma {:induction false} FilterNamed(abs: map<(nat, Path), nat>, d: nat, filters: seq<(string, nat)>, c: nat, p: Path)
    ensures (c, p) in WithFilters(abs, d, filters) && (c, p) !in abs ==>
              d == c && exists i :: 0 <= i < |filters| && FullPath(filters[i].0) == p
    decreases |filters|
  {
    hide FullPath, Grantable;
    if filters != [] && Grantable(filters[0].0, filters[0].1) {
      FilterNamed(abs[(d, FullPath(filters[0].0)) := filters[0].1], d, filters[1..], c, p);
      assert forall i | 0 <= i < |filters| - 1 :: filters[1..][i] == filters[i + 1];
    }
  }

  lemma {:induction false} NoneAdded(abs: map<(nat, Path), nat>, d: nat, names: seq<string>, key: (nat, Path))
    ensures key in WithoutFilters(abs, d, names) ==> key in abs
    decreases |names|
  {
    if names != [] && Grantable(names[0], 0) {
      NoneAdded(abs - {(d, FullPath(names[0]))}, d, names[1..], key);
    }
  }

  // ----- what a client keeps, from the events' own fields -----

  /** Event `i` is a CONNECT of client `c` for a persistent session, and no later one asks for a clean session. */
  ghost predicate Persists(events: seq<(Event, int)>, i: nat, c: nat) {
    && i < |events| && c < |WorldAfterAll(events[..i]).peers|
    && events[i].0.Connects? && events[i].0.c == c && !events[i].0.clean && ValidWill(events[i].0.will)
    && forall k | i < k < |events| :: !(events[k].0.Connects? && events[k].0.c == c && events[k].0.clean)
  }

  lemma PersistsBefore(events: seq<(Event, int)>, i: nat, c: nat)
    requires Persists(events, i, c) && i < |events| - 1
    ensures Persists(events[..|events| - 1], i, c)
  {
    assert events[..|events| - 1][..i] == events[..i];
  }

  lemma {:induction false} StaysPersistent(events: seq<(Event, int)>, i: nat, c: nat)
    requires Persists(events, i, c)
    ensures var peers := WorldAfterAll(events).peers; c < |peers| && peers[c].named && !peers[c].clean
  {
    hide WithFilters, WithoutFilters, Without, Persists;
    var n := |events| - 1;
    PersistsAt(events, i, c);
    if i < n {
      PersistsBefore(events, i, c);
      StaysPersistent(events[..n], i, c);
    }
  }

  lemma PersistsAt(events: seq<(Event, int)>, i: nat, c: nat)
    requires Persists(events, i, c)
    ensures var n := |events| - 1;
            && i <= n
            && (i == n ==> c < |WorldAfterAll(events[..n]).peers| && events[n].0.Connects? && events[n].0.c == c
                           && !events[n].0.clean && WillOk(events[n].0.will))
            && !(events[n].0.Connects? && events[n].0.c == c && events[n].0.clean)
  {
  }

  /** Event `j` is a SUBSCRIBE of a known client to `filter`, which is granted. */
  ghost predicate Grants(events: seq<(Event, int)>, j: nat, c: nat, filter: string, qos: nat) {
    && j < |events| && c < |WorldAfterAll(events[..j]).peers| && events[j].0.Subscribes? && events[j].0.c == c
    && (events[j].0.mqtt311 ==> events[j].0.flags == 2)
    && exists i: nat :: GrantedAt(events[j].0.filters, i, filter, qos)
  }

  /** A filter of a list is granted if all up to it are, and holds if none after it is the same. */
  predicate GrantedAt(filters: seq<(string, nat)>, i: nat, filter: string, qos: nat) {
    && i < |filters| && filters[i] == (filter, qos)
    && (forall k | 0 <= k <= i :: ValidFilter(filters[k].0) && |filters[k].0| <= 65535 && filters[k].1 <= 2)
    && forall k | i < k < |filters| :: filters[k].0 != filter
  }

  /** An event that changes a subscription of client `c`. */
  predicate Renews(e: Event, c: nat, filter: string) {
    match e
    case Subscribes(d, _, filters, _, _) => d == c && exists i :: 0 <= i < |filters| && filters[i].0 == filter
    case Unsubscribes(d, _, names, _, _) => d == c && filter in names
    case _ => false
  }

  /**
    A subscription of a persistent session lasts until it is renewed or given up, whether the client is connected or
    not: no other event, and no CONNECT or end of a connection, changes it.
  */
  lemma {:induction false} SubscriptionLasts(events: seq<(Event, int)>, i: nat, j: nat, c: nat, filter: string,
                                             qos: nat)
    requires Persists(events, i, c) && i < j && Grants(events, j, c, filter, qos)
             && forall k | j < k < |events| :: !Renews(events[k].0, c, filter)
    ensures var abs := WorldAfterAll(events).abs; (c, FullPath(filter)) in abs && abs[(c, FullPath(filter))] == qos
  {
    var n := |events| - 1;
    var before := WorldAfterAll(events[..n]);
    if j == n {
      var k: nat :| GrantedAt(events[j].0.filters, k, filter, qos);
      GrantedIsThere(before.abs, c, events[j].0.filters, k, filter, qos);
    } else {
      assert events[..n][..j] == events[..j];
      PersistsBefore(events, i, c);
      SubscriptionLasts(events[..n], i, j, c, filter, qos);
      StaysPersistent(events[..n], i, c);
      PersistsAt(events, i, c);
      hide Persists, Grants, WorldAfterAll;
      if Possible(events[n].0, |before.peers|) { LeavesAlone(before, events[n].0, c, filter); }
      LastEvent(events);
    }
  }

  /** A filter that an UNSUBSCRIBE has given up is not subscribed to, until it is subscribed to again. */
  lemma {:induction false} SubscriptionGone(events: seq<(Event, int)>, j: nat, c: nat, filter: string)
    requires j < |events| && c < |WorldAfterAll(events[..j]).peers| && GivesUp(events[j].0, c, filter)
             && forall k | j < k < |events| :: !(events[k].0.Subscribes? && Renews(events[k].0, c, filter))
    ensures (c, FullPath(filter)) !in WorldAfterAll(events).abs
  {
    var n := |events| - 1;
    var before := WorldAfterAll(events[..n]);
    LastEvent(events);
    hide WorldAfterAll, WorldAfter, GivesUp, Renews, FullPath;
    if j == n {
      GoneAtOnce(before, events[n].0, c, filter);
    } else {
      assert events[..n][..j] == events[..j];
      SubscriptionGone(events[..n], j, c, filter);
      if Possible(events[n].0, |before.peers|) { ComesNotBack(before, events[n].0, c, filter); }
    }
  }

  /** An UNSUBSCRIBE that names a filter, and only valid ones before it. */
  ghost predicate GivesUp(e: Event, c: nat, filter: string) {
    && e.Unsubscribes? && e.c == c && (e.mqtt311 ==> e.flags == 2)
    && exists i: nat ::
         i < |e.names| && e.names[i] == filter
         && forall k | 0 <= k <= i :: ValidFilter(e.names[k]) && |e.names[k]| <= 65535
  }

  lemma GoneAtOnce(w: World, e: Event, c: nat, filter: string)
    requires c < |w.peers| && GivesUp(e, c, filter)
    ensures Possible(e, |w.peers|) && (c, FullPath(filter)) !in WorldAfter(w, e).abs
  {
    hide FullPath, ValidFilter;
    var i: nat :| i < |e.names| && e.names[i] == filter
                  && forall k | 0 <= k <= i :: ValidFilter(e.names[k]) && |e.names[k]| <= 65535;
    DroppedIsGone(w.abs, c, e.names, i);
  }

  lemma ComesNotBack(w: World, e: Event, c: nat, filter: string)
    requires Possible(e, |w.peers|) && (c, FullPath(filter)) !in w.abs && !(e.Subscribes? && Renews(e, c, filter))
    ensures (c, FullPath(filter)) !in WorldAfter(w, e).abs
  {
    hide FullPath, WillOk, TakesOver;
    match e {
      case Subscribes(d, _, filters, _, _) => NotGranted(w.abs, d, filters, c, filter);
      case Unsubscribes(d, _, names, _, _) => NoneAdded(w.abs, d, names, (c, FullPath(filter)));
      case _ =>
    }
  }

  lemma {:induction false} NotGranted(abs: map<(nat, Path), nat>, d: nat, filters: seq<(string, nat)>, c: nat,
                                      filter: string)
    requires (c, FullPath(filter)) !in abs && (d == c ==> forall i | 0 <= i < |filters| :: filters[i].0 != filter)
    ensures (c, FullPath(filter)) !in WithFilters(abs, d, filters)
    decreases |filters|
  {
    hide FullPath, Grantable;
    if filters != [] && Grantable(filters[0].0, filters[0].1) {
      if d == c && FullPath(filters[0].0) == FullPath(filter) { FullPathInjective(filters[0].0, filter); }
      assert forall k | 0 <= k < |filters| - 1 :: filters[1..][k] == filters[k + 1];
      NotGranted(abs[(d, FullPath(filters[0].0)) := filters[0].1], d, filters[1..], c, filter);
    }
  }

  lemma {:induction false} DroppedIsGone(abs: map<(nat, Path), nat>, c: nat, names: seq<string>, i: nat)
    requires i < |names| && forall k | 0 <= k <= i :: ValidFilter(names[k]) && |names[k]| <= 65535
    ensures (c, FullPath(names[i])) !in WithoutFilters(abs, c, names)
    decreases |names|
  {
    hide FullPath, ValidFilter;
    var fewer := abs - {(c, FullPath(names[0]))};
    if i == 0 {
      NoneAdded(fewer, c, names[1..], (c, FullPath(names[0])));
    } else {
      assert forall k | 0 <= k < |names| - 1 :: names[1..][k] == names[k + 1];
      DroppedIsGone(fewer, c, names[1..], i - 1);
    }
  }

  /** Event `i` is a CONNECT of a known client, with a will that can be published or none. */
  ghost predicate Opens(events: seq<(Event, int)>, i: nat, c: nat) {
    && i < |events| && c < |WorldAfterAll(events[..i]).peers|
    && events[i].0.Connects? && events[i].0.c == c && ValidWill(events[i].0.will)
  }

  ghost predicate OpenSince(events: seq<(Event, int)>, i: nat, c: nat) {
    Opens(events, i, c) && forall k | i < k < |events| :: !(events[k].0.Disconnects? && events[k].0.c == c)
  }

  /** A client counts as connected just when it has sent a CONNECT and the connection has not ended since. */
  lemma {:induction false} ConnectedSince(events: seq<(Event, int)>, c: nat)
    ensures var peers := WorldAfterAll(events).peers;
            (c < |peers| && peers[c].connected) <==> exists i: nat :: OpenSince(events, i, c)
  {
    hide WithFilters, WithoutFilters, Without;
    if events != [] {
      var n := |events| - 1;
      var before := WorldAfterAll(events[..n]);
      ConnectedSince(events[..n], c);
      LastEvent(events);
      forall i: nat | i < n ensures Opens(events, i, c) <==> Opens(events[..n], i, c) {
        assert events[..n][..i] == events[..i];
      }
      if c < |before.peers| && before.peers[c].connected && !(events[n].0.Disconnects? && events[n].0.c == c) {
        var i: nat :| OpenSince(events[..n], i, c);
        assert OpenSince(events, i, c);
      }
      if Opens(events, n, c) { assert OpenSince(events, n, c); }
      if i: nat :| OpenSince(events, i, c) {
        assert i < n ==> OpenSince(events[..n], i, c);
      }
    }
  }

  lemma LastEvent(events: seq<(Event, int)>)
    requires events != []
    ensures var n := |events| - 1; var w := WorldAfterAll(events[..n]);
            WorldAfterAll(events) == if Possible(events[n].0, |w.peers|) then WorldAfter(w, events[n].0) else w
  {
  }

  lemma LeavesAlone(w: World, e: Event, c: nat, filter: string)
    requires Possible(e, |w.peers|) && c < |w.peers| && w.peers[c].named && !w.peers[c].clean
    requires !(e.Connects? && e.c == c && e.clean) && !Renews(e, c, filter) && (c, FullPath(filter)) in w.abs
    ensures var k := (c, FullPath(filter)); k in WorldAfter(w, e).abs && WorldAfter(w, e).abs[k] == w.abs[k]
  {
    hide FullPath, WillOk;
    match e {
      case Subscribes(d, _, filters, _, _) => OthersGranted(w.abs, d, filters, c, filter);
      case Unsubscribes(d, _, names, _, _) => OthersDropped(w.abs, d, names, c, filter);
      case _ =>
    }
  }

  lemma {:induction false} GrantedIsThere(abs: map<(nat, Path), nat>, c: nat, filters: seq<(string, nat)>, i: nat,
                                          filter: string, qos: nat)
    requires GrantedAt(filters, i, filter, qos)
    ensures var k := (c, FullPath(filter)); k in WithFilters(abs, c, filters) && WithFilters(abs, c, filters)[k] == qos
    decreases |filters|
  {
    hide FullPath, ValidFilter;
    var more := abs[(c, FullPath(filters[0].0)) := filters[0].1];
    assert forall k | 0 <= k < |filters| - 1 :: filters[1..][k] == filters[k + 1];
    if i == 0 {
      OthersGranted(more, c, filters[1..], c, filter);
    } else {
      GrantedIsThere(more, c, filters[1..], i - 1, filter, qos);
    }
  }

  lemma {:induction false} OthersGranted(abs: map<(nat, Path), nat>, d: nat, filters: seq<(string, nat)>, c: nat,
                                         filter: string)
    requires (c, FullPath(filter)) in abs && (d == c ==> forall i | 0 <= i < |filters| :: filters[i].0 != filter)
    ensures var k := (c, FullPath(filter));
            k in WithFilters(abs, d, filters) && WithFilters(abs, d, filters)[k] == abs[k]
    decreases |filters|
  {
    hide FullPath, Grantable;
    if filters != [] && Grantable(filters[0].0, filters[0].1) {
      if d == c && FullPath(filters[0].0) == FullPath(filter) { FullPathInjective(filters[0].0, filter); }
      assert forall k | 0 <= k < |filters| - 1 :: filters[1..][k] == filters[k + 1];
      OthersGranted(abs[(d, FullPath(filters[0].0)) := filters[0].1], d, filters[1..], c, filter);
    }
  }

  lemma {:induction false} OthersDropped(abs: map<(nat, Path), nat>, d: nat, names: seq<string>, c: nat, filter: string)
    requires (c, FullPath(filter)) in abs && (d == c ==> filter !in names)
    ensures var k := (c, FullPath(filter));
            k in WithoutFilters(abs, d, names) && WithoutFilters(abs, d, names)[k] == abs[k]
    decreases |names|
  {
    hide FullPath, Grantable;
    if names != [] && Grantable(names[0], 0) {
      if d == c && FullPath(names[0]) == FullPath(filter) { FullPathInjective(names[0], filter); }
      OthersDropped(abs - {(d, FullPath(names[0]))}, d, names[1..], c, filter);
    }
  }

  function Peers(contexts: seq<Context>): (peers: seq<Peer>)
    ensures |peers| == |contexts|
  {
    seq(|contexts|, i requires 0 <= i < |contexts| => contexts[i].peer)
  }

  ghost function WorldOf(db: Database): World
    reads db, db.tree
  {
    World(Peers(db.contexts), db.tree.abs)
  }

  lemma PeersStay(before: seq<Context>, after: seq<Context>)
    ensures SamePeers(before, after) ==> Peers(after) == Peers(before)
    ensures forall c: nat | Only(c, before, after) :: Peers(after) == Peers(before)[c := after[c].peer]
    ensures forall c: nat | c < |before| :: Peers(before)[c] == before[c].peer
  {
  }

  lemma PeersOfNew(contexts: seq<Context>)
    ensures Peers(contexts + [NOBODY]) == Peers(contexts) + [NOBODY.peer]
  {
  }

  // ----- retained messages, as the messages handed on make them -----

  /**
    A message that was handed on under a topic; `kept` says that it became the retained message of the topic, or cleared
    it.
  */
  datatype Item = Item(m: nat, topic: string, retain: bool, payloadlen: nat, kept: bool)

  ghost function RetAfter(ret: map<Path, nat>, item: Option<Item>): map<Path, nat> {
    if item.Some? && item.value.kept then RetainedAfter(ret, item.value.topic, item.value.m, item.value.payloadlen)
        else ret
  }

  ghost function RetAfterAll(items: seq<Option<Item>>): map<Path, nat> {
    if items == [] then map[] else RetAfter(RetAfterAll(items[..|items| - 1]), items[|items| - 1])
  }

  /** The item that a message makes when it is handed on. */
  ghost function ItemOf(m: nat, topic: string, retain: bool, payloadlen: nat, at: map<Path, nat>): Item {
    Item(m, topic, retain, payloadlen, retain && Sub(Root, Tokens(topic)[0]) in at)
  }

  lemma ItemKept(ret: map<Path, nat>, at: map<Path, nat>, topic: string, retain: bool, m: nat, payloadlen: nat)
    ensures RetainedIf(ret, at, topic, retain, m, payloadlen) ==
              RetAfter(ret, Some(ItemOf(m, topic, retain, payloadlen, at)))
    ensures HandedOn(Some(ItemOf(m, topic, retain, payloadlen, at))) == multiset{m}
  {
  }

  function HandedOn(item: Option<Item>): multiset<nat> {
    if item.Some? then multiset{item.value.m} else multiset{}
  }

  function AllHandedOn(items: seq<Option<Item>>): multiset<nat> {
    if items == [] then multiset{} else AllHandedOn(items[..|items| - 1]) + HandedOn(items[|items| - 1])
  }

  /** Whether an event hands a message on at once, whatever the state of the queues. */
  predicate AtOnce(w: World, e: Event)
    requires Possible(e, |w.peers|)
  {
    match e
    case Publishes(_, qos, topic, _, payloadlen, _, sizeLimit, permitted) =>
      qos < 2 && ValidTopic(topic) && |topic| <= 65535 && permitted && !(sizeLimit > 0 && payloadlen > sizeLimit)
    case Disconnects(c, asked, permitted) => Wills(w.peers[c], asked, permitted)
    case _ => false
  }

  /**
    What an event hands on. A plain topic keeps every retained message; one with a leading '$' perhaps not. A message is
    handed on with its own payload, even where the topic and the flag are those of a publication that used its packet id
    again.
  */
  ghost predicate Fits(w: World, e: Event, item: Item, born: Store)
    requires Possible(e, |w.peers|)
  {
    && ValidTopic(item.topic) && item.m in born && item.payloadlen == born[item.m].payloadlen
    && (item.kept ==> item.retain) && (!StartsWithDollar(item.topic) ==> item.kept == item.retain)
    && match e
       case Publishes(_, _, topic, _, _, retain, _, _) => AtOnce(w, e) && item.topic == topic && item.retain == retain
       case Disconnects(c, _, _) =>
         AtOnce(w, e) && item.topic == w.peers[c].will.value.topic && item.retain == w.peers[c].will.value.retain
             && item.payloadlen == w.peers[c].will.value.payloadlen
       case Releases(_, mid, _, _) =>
         born[item.m].topic == Some(item.topic) && born[item.m].retain == item.retain && born[item.m].sourceMid == mid
       case _ => false
  }

  ghost predicate StepFits(w: World, e: Event, item: Option<Item>, born: Store)
    requires Possible(e, |w.peers|)
  {
    (AtOnce(w, e) ==> item.Some?) && (item.Some? ==> Fits(w, e, item.value, born))
  }

  /**
    A message that is retained under a path is the last one that was handed on under it with the flag, and no later one
    cleared it.
  */
  ghost predicate LastKept(items: seq<Option<Item>>, k: nat, p: Path, m: nat) {
    && k < |items| && Concerns(items[k], p) && items[k].value.m == m && items[k].value.payloadlen > 0
    && forall j | k < j < |items| :: !Concerns(items[j], p)
  }

  ghost predicate Concerns(item: Option<Item>, p: Path) {
    item.Some? && item.value.kept && FullPath(item.value.topic) == p
  }

  lemma {:induction false} RetainedIsLast(items: seq<Option<Item>>, p: Path, m: nat)
    ensures p in RetAfterAll(items) && RetAfterAll(items)[p] == m <==> exists k: nat :: LastKept(items, k, p, m)
  {
    if items != [] {
      var n := |items| - 1;
      RetainedIsLast(items[..n], p, m);
      if Concerns(items[n], p) {
        assert forall k: nat | LastKept(items, k, p, m) :: k == n;
        assert items[n].value.payloadlen > 0 && items[n].value.m == m ==> LastKept(items, n, p, m);
      } else {
        forall k: nat ensures LastKept(items, k, p, m) <==> LastKept(items[..n], k, p, m) {
          assert k < n ==> items[..n][k] == items[k];
        }
      }
    }
  }

  // ----- queues and packets -----

  /** The sessions at some moment, and what has been sent until then. */
  datatype Moment = Moment(contexts: seq<Context>, sent: seq<Packet>)

  function MomentOf(db: Database): Moment
    reads db
  {
    Moment(db.contexts, db.sent)
  }

  /** What an event does to the queue of session `d`, by its own fields and those of the session. */
  function CauseOf(e: Event, now: int, peer: Peer, d: nat): Cause {
    match e
    case Connects(c, clean, will) =>
      if d != c || !ValidWill(will) then Nothing else if peer.named && !peer.clean && !clean then Resumed else Ended
    case Disconnects(c, _, _) => if d == c && peer.connected && peer.clean then Ended else Nothing
    case Acknowledges(c, mid) => if d == c then Acknowledged(mid) else Nothing
    case Receives(c, mid) => if d == c then Confirming(mid) else Nothing
    case Releases(c, mid, _, _) => if d == c then Released(mid) else Nothing
    case Writes(c, _) => if d == c then Writing else Nothing
    case TimesOut(timeout) => if peer.connected then Overdue(now - timeout, now) else Nothing
    case _ => Nothing
  }

  ghost predicate QueueFollows(e: Event, now: int, before: seq<Context>, after: seq<Context>, d: nat) {
    && (d < |before| && d < |after| ==>
          Follows(before[d].msgs, after[d].msgs, CauseOf(e, now, before[d].peer, d)))
    && (|before| <= d < |after| ==> after[d].msgs == [])
  }

  /** A PUBLISH is sent only when a queue is written, and then for one of its entries. */
  ghost predicate SendsFor(e: Event, before: seq<Context>, after: seq<Context>, packets: seq<Packet>) {
    if e.Writes? then
      e.c < |before| && e.c < |after| && exists done :: Wrote(before[e.c].msgs, after[e.c].msgs, packets, done, e.c)
    else forall p | p in packets :: !p.Publish?
  }

  /** The first outgoing entry under the packet id of a PUBREC waits for its PUBCOMP. */
  ghost predicate ConfirmsFirst(e: Event, before: seq<Context>, after: seq<Context>) {
    e.Receives? && e.c < |before| ==>
      && e.c < |after| && |after[e.c].msgs| == |before[e.c].msgs|
      && forall i: nat | i < |before[e.c].msgs| && FirstOut(before[e.c].msgs, i, e.mid) ::
           PhaseOf(after[e.c].msgs[i]) == Confirmed
  }

  /** An event, in all queues and on all connections. */
  ghost predicate Advances(e: Event, now: int, before: Moment, after: Moment) {
    && |before.contexts| <= |after.contexts| && |before.sent| <= |after.sent|
    && after.sent[..|before.sent|] == before.sent
    && (forall d: nat :: QueueFollows(e, now, before.contexts, after.contexts, d))
    && SendsFor(e, before.contexts, after.contexts, after.sent[|before.sent|..])
    && ConfirmsFirst(e, before.contexts, after.contexts)
  }

  /** Nobody is sent a PUBLISH. */
  ghost predicate NoPublish(before: Moment, after: Moment) {
    && |before.sent| <= |after.sent| && after.sent[..|before.sent|] == before.sent
    && forall p | p in after.sent[|before.sent|..] :: !p.Publish?
  }

  /** An event that is over for all sessions but one when its message has been distributed. */
  lemma AdvancesBy(e: Event, now: int, before: Moment, after: Moment, c: nat, cause: Cause)
    requires AllFollow(before.contexts, after.contexts, c, cause) && !e.Writes? && !e.Receives?
             && NoPublish(before, after)
    requires forall d: nat | d < |before.contexts| ::
               CauseOf(e, now, before.contexts[d].peer, d) == if d == c then cause else Nothing
    ensures Advances(e, now, before, after)
  {
    hide Follows, CauseOf;
    forall d: nat ensures QueueFollows(e, now, before.contexts, after.contexts, d) {
      assert FollowsAt(before.contexts, after.contexts, c, cause, d);
    }
  }

  /** An event that concerns one session only. */
  lemma AdvancesOnly(e: Event, now: int, before: Moment, after: Moment, c: nat)
    requires Only(c, before.contexts, after.contexts) && !e.TimesOut? && !e.Appears? && e.c == c
    requires Follows(before.contexts[c].msgs, after.contexts[c].msgs, CauseOf(e, now, before.contexts[c].peer, c))
    requires |before.sent| <= |after.sent| && after.sent[..|before.sent|] == before.sent
    requires SendsFor(e, before.contexts, after.contexts, after.sent[|before.sent|..])
    requires ConfirmsFirst(e, before.contexts, after.contexts)
    ensures Advances(e, now, before, after)
  {
    hide Follows, SendsFor, ConfirmsFirst;
    forall d: nat ensures QueueFollows(e, now, before.contexts, after.contexts, d) {
      if d < |before.contexts| && d != c { FollowsSame(before.contexts[d].msgs, Nothing); }
    }
  }

  /** An event that changes no queue. */
  lemma AdvancesNone(e: Event, now: int, before: Moment, after: Moment)
    requires after.contexts == before.contexts || after.contexts == before.contexts + [NOBODY]
    requires forall d: nat | d < |before.contexts| :: CauseOf(e, now, before.contexts[d].peer, d) == Nothing
    requires NoPublish(before, after) && !e.Writes? && !e.Receives?
    ensures Advances(e, now, before, after)
  {
    hide Follows, CauseOf;
    forall d: nat ensures QueueFollows(e, now, before.contexts, after.contexts, d) {
      if d < |before.contexts| { FollowsSame(before.contexts[d].msgs, Nothing); }
    }
  }

  lemma AdvancesInTime(e: Event, now: int, before: Moment, after: Moment)
    requires e.TimesOut? && |after.contexts| == |before.contexts| && after.sent == before.sent
    requires forall c: nat | c < |before.contexts| ::
               Repeats(before.contexts[c], after.contexts[c], now - e.timeout, now)
    ensures Advances(e, now, before, after)
  {
    hide Follows, Onward;
    forall d: nat ensures QueueFollows(e, now, before.contexts, after.contexts, d) {
      if d < |before.contexts| {
        assert Repeats(before.contexts[d], after.contexts[d], now - e.timeout, now);
        if before.contexts[d].peer.connected {
          FollowsEach(before.contexts[d].msgs, after.contexts[d].msgs, Overdue(now - e.timeout, now));
        } else {
          FollowsSame(before.contexts[d].msgs, Nothing);
        }
      }
    }
  }

  lemma {:induction false} WroteFollows(before: seq<Entry>, after: seq<Entry>, packets: seq<Packet>, done: bool, c: nat)
    requires Wrote(before, after, packets, done, c)
    ensures Follows(before, after, Writing)
  {
    hide CallsFor, Sent, Due;
    if before != [] {
      if after != [] && Left(before[0], after[0], done) && Wrote(before[1..], after[1..], packets, done, c) {
        WroteFollows(before[1..], after[1..], packets, done, c);
      } else if after != [] && packets != [] && CallsFor(before[0], packets[0], c) && Sent(before[0], after[0])
                && Wrote(before[1..], after[1..], packets[1..], done, c) {
        WroteFollows(before[1..], after[1..], packets[1..], done, c);
      } else {
        WroteFollows(before[1..], after, packets[1..], done, c);
      }
    }
  }

  lemma AdvancesWriting(e: Event, now: int, before: Moment, after: Moment, done: bool)
    requires e.Writes? && Only(e.c, before.contexts, after.contexts)
    requires |before.sent| <= |after.sent| && after.sent[..|before.sent|] == before.sent
    requires Wrote(before.contexts[e.c].msgs, after.contexts[e.c].msgs, after.sent[|before.sent|..], done, e.c)
    ensures Advances(e, now, before, after)
  {
    hide Follows, Wrote;
    WroteFollows(before.contexts[e.c].msgs, after.contexts[e.c].msgs, after.sent[|before.sent|..], done, e.c);
    AdvancesOnly(e, now, before, after, e.c);
  }

  lemma AdvancesConnect(e: Event, now: int, before: Moment, after: Moment, rc: nat)
    requires e.Connects? && Only(e.c, before.contexts, after.contexts) && after.sent == before.sent
    requires rc == (if WillOk(e.will) then 0 else 1) && (rc != 0 ==> after.contexts == before.contexts)
    requires var peer := before.contexts[e.c].peer;
             rc == 0 ==> Follows(before.contexts[e.c].msgs, after.contexts[e.c].msgs,
                                 if peer.named && !peer.clean && !e.clean then Resumed else Ended)
    ensures Advances(e, now, before, after)
  {
    hide Follows;
    if rc != 0 { FollowsSame(before.contexts[e.c].msgs, Nothing); }
    AdvancesOnly(e, now, before, after, e.c);
  }

  lemma AdvancesConfirmed(e: Event, now: int, before: Moment, after: Moment)
    requires e.Receives? && Only(e.c, before.contexts, after.contexts)
             && after.sent == before.sent + [Pubrel(e.c, e.mid)]
    requires Follows(before.contexts[e.c].msgs, after.contexts[e.c].msgs, Confirming(e.mid))
    requires MarksFirst(before.contexts[e.c].msgs, after.contexts[e.c].msgs, e.mid, now)
    ensures Advances(e, now, before, after)
  {
    hide Follows;
    AdvancesOnly(e, now, before, after, e.c);
  }

  lemma AdvancesSubscribed(e: Event, now: int, before: Moment, after: Moment, ret: map<Path, nat>)
    requires e.Subscribes? && Only(e.c, before.contexts, after.contexts) && NoPublish(before, after)
    requires GotRetainedOnly(before.contexts[e.c], after.contexts[e.c], ret)
    ensures Advances(e, now, before, after)
  {
    hide Follows, FreshCopy;
    FollowsFresh(before.contexts[e.c].msgs, after.contexts[e.c].msgs, Nothing);
    AdvancesOnly(e, now, before, after, e.c);
  }

  // ----- runs -----

  ghost predicate LogGrows(before: Log, after: Log) {
    && before.accepted <= after.accepted && before.routed <= after.routed
    && before.discarded <= after.discarded && before.reused <= after.reused
  }

  /** The top of a plain topic is always there. */
  lemma PlainTop(db: Database, topic: string)
    requires InOrder(db)
    ensures ValidTopic(topic) && !StartsWithDollar(topic) ==> Sub(Root, Tokens(topic)[0]) in db.tree.at
  {
    FirstLevel(topic);
  }

  lemma PlainTops(db: Database)
    requires InOrder(db)
    ensures forall topic: string | ValidTopic(topic) && !StartsWithDollar(topic) ::
              Sub(Root, Tokens(topic)[0]) in db.tree.at
  {
    forall topic: string | ValidTopic(topic) && !StartsWithDollar(topic)
        ensures Sub(Root, Tokens(topic)[0]) in db.tree.at {
      PlainTop(db, topic);
    }
  }

  lemma BornValid(db: Database, m: nat)
    requires InOrder(db) && m in db.born
    ensures db.born[m].topic.Some? ==> ValidTopic(db.born[m].topic.value)
  {
  }

  lemma LoggedMore(log: Log, effect: Effect)
    ensures LogGrows(log, Logged(log, effect))
    ensures Logged(log, effect).routed ==
            log.routed + if effect.Routed? || effect.Rerouted? then multiset{effect.m} else multiset{}
  {
  }

  method Publish(db: Database, e: Event, now: int) returns (ghost item: Option<Item>)
    requires InOrder(db) && e.Publishes? && Possible(e, |db.contexts|)
    modifies db`store, db`storeList, db`storeCount, db`nextStore, db`born, db`contexts, db`held, db`log, db`sent,
             db.tree
    ensures InOrder(db) && db.held == old(db.held) && LogGrows(old(db.log), db.log) && Extends(old(db.born), db.born)
    ensures SamePeers(old(db.contexts), db.contexts) && db.tree.abs == old(db.tree.abs)
    ensures StepFits(old(WorldOf(db)), e, item, db.born) && db.tree.ret == RetAfter(old(db.tree.ret), item)
    ensures db.log.routed == old(db.log.routed) + HandedOn(item)
    ensures Advances(e, now, old(MomentOf(db)), MomentOf(db))
  {
    hide InOrder, AllIncoming, Distributed, Answered, Waits, ValidTopic, RetainedAfter, SamePeers, WithEntry, EntryFor,
         HasWaiting, Extends, Logged, LogGrows, SentBefore, LengthOf, Accepts, SameMessage, Born, AllFollow, Advances,
         Offers.AllRight;
    PlainTop(db, e.topic);
    ghost var kept := e.retain && Sub(Root, Tokens(e.topic)[0]) in db.tree.at;
    var _, effect := HandlePublish(db, e.c, e.qos, e.topic, e.mid, e.payloadlen, e.retain, e.sizeLimit, e.permitted,
                                   now);
    LoggedMore(old(db.log), effect);
    AdvancesBy(e, now, old(MomentOf(db)), MomentOf(db), e.c, Nothing);
    item := None;
    if effect.Routed? || effect.Rerouted? {
      item := Some(Item(effect.m, e.topic, e.retain, db.born[effect.m].payloadlen, kept));
    }
  }

  method Release(db: Database, e: Event, now: int) returns (ghost item: Option<Item>)
    requires InOrder(db) && e.Releases? && Possible(e, |db.contexts|)
    modifies db`store, db`storeList, db`storeCount, db`contexts, db`held, db`log, db`sent, db.tree
    ensures InOrder(db) && db.held == old(db.held) && LogGrows(old(db.log), db.log)
    ensures SamePeers(old(db.contexts), db.contexts) && db.tree.abs == old(db.tree.abs)
    ensures StepFits(old(WorldOf(db)), e, item, db.born) && db.tree.ret == RetAfter(old(db.tree.ret), item)
    ensures db.log.routed == old(db.log.routed) + HandedOn(item)
    ensures Advances(e, now, old(MomentOf(db)), MomentOf(db))
  {
    hide InOrder, ReleasedTo, ReleasedOwn, TakenOut, RetainedAfter, Waits, SamePeers, OnlyStarted, ValidTopic,
         AllFollow, Advances, ReleasedRight, StartedAnswered;
    ghost var at := db.tree.at;
    PlainTops(db);
    var rc, found, k := HandlePubrel(db, e.c, e.mid, e.mqtt311, e.flags, now);
    AdvancesBy(e, now, old(MomentOf(db)), MomentOf(db), e.c, Released(e.mid));
    item := None;
    if rc == 0 && found && db.born[k.store].topic.Some? {
      ghost var topic := db.born[k.store].topic.value;
      BornValid(db, k.store);
      item := Some(Item(k.store, topic, k.retain, db.born[k.store].payloadlen, k.retain
                        && Sub(Root, Tokens(topic)[0]) in at));
    }
  }

  method End(db: Database, e: Event, now: int) returns (ghost item: Option<Item>)
    requires InOrder(db) && e.Disconnects? && Possible(e, |db.contexts|)
    modifies db`store, db`storeList, db`storeCount, db`nextStore, db`born, db`contexts, db`held, db`log, db.tree
    ensures InOrder(db) && db.held == old(db.held) && LogGrows(old(db.log), db.log) && Extends(old(db.born), db.born)
    ensures WorldOf(db) == WorldAfter(old(WorldOf(db)), e)
    ensures StepFits(old(WorldOf(db)), e, item, db.born) && db.tree.ret == RetAfter(old(db.tree.ret), item)
    ensures db.log.routed == old(db.log.routed) + HandedOn(item)
    ensures Advances(e, now, old(MomentOf(db)), MomentOf(db))
  {
    hide InOrder, Distributed, ValidTopic, RetainedIf, RetAfter, Keys, Without, AllIncoming, Tokens, Peers, ItemOf,
         HandedOn, Fits, Born, Extends, Only, Gone, AllFollow, Advances,
         Offers.AllRight;
    PlainTops(db);
    ghost var m, at, contexts, peer := db.nextStore, db.tree.at, db.contexts, db.contexts[e.c].peer;
    PeersStay(contexts, contexts);
    ghost var mid := Disconnect(db, e.c, e.asked, e.permitted, now);
    EndPeers(contexts, mid, db.contexts, e.c);
    AdvancesBy(e, now, old(MomentOf(db)), MomentOf(db), e.c, if peer.connected && peer.clean then Ended else Nothing);
    item := None;
    NothingHandedOn(db.tree.ret, db.born);
    if Wills(peer, e.asked, e.permitted) {
      ghost var w := peer.will.value;
      ItemKept(old(db.tree.ret), at, w.topic, w.retain, m, w.payloadlen);
      item := Some(ItemOf(m, w.topic, w.retain, w.payloadlen, at));
      WillFits(old(WorldOf(db)), e, w, m, at, old(db.born), db.born);
    }
  }

  lemma EndPeers(before: seq<Context>, mid: seq<Context>, after: seq<Context>, c: nat)
    requires AllIncoming(before, mid) && Only(c, mid, after)
    ensures Peers(after) == Peers(before)[c := after[c].peer]
  {
    hide AllIncoming;
    IncomingPeers(before, mid);
    PeersStay(before, mid);
    PeersStay(mid, after);
  }

  lemma WillFits(world: World, e: Event, w: Will, m: nat, at: map<Path, nat>, born: Store, born': Store)
    requires e.Disconnects? && Possible(e, |world.peers|) && AtOnce(world, e) && w == world.peers[e.c].will.value
             && m !in born
    requires ValidTopic(w.topic) && (!StartsWithDollar(w.topic) ==> Sub(Root, Tokens(w.topic)[0]) in at)
             && born' == born[m := Born(0, Some(w.topic), w.qos, w.payloadlen, w.retain)]
    ensures Fits(world, e, ItemOf(m, w.topic, w.retain, w.payloadlen, at), born') && Extends(born, born')
  {
  }

  /** An event that hands nothing on. */
  method Quiet(db: Database, e: Event, now: int)
    requires InOrder(db) && Possible(e, |db.contexts|) && !e.Disconnects? && !e.Publishes? && !e.Releases?
    modifies db`store, db`storeList, db`storeCount, db`contexts, db`log, db`sent, db.tree
    ensures InOrder(db) && LogGrows(old(db.log), db.log) && db.log.routed == old(db.log.routed)
    ensures WorldOf(db) == WorldAfter(old(WorldOf(db)), e) && db.tree.ret == old(db.tree.ret)
    ensures Advances(e, now, old(MomentOf(db)), MomentOf(db))
  {
    hide InOrder, Without, WithFilters, WithoutFilters, ResetQueueState, GotRetainedOnly, DeletedUpTo, InQueueOrder,
         Keys, SamePeers, WindowStarted, TimedOutSession, AllGrantable, AllValid, Session.Answers, InStores, Tracked,
         Others, Follows, Wrote, Repeats, Advances, MarksFirst, WillOk;
    ghost var before := MomentOf(db);
    match e {
      case Appears =>
        var _ := NewClient(db);
        PeersOfNew(old(db.contexts));
        AdvancesNone(e, now, before, MomentOf(db));
      case Connects(c, clean, will) =>
        var rc := Connect(db, c, clean, will);
        PeersStay(old(db.contexts), db.contexts);
        AdvancesConnect(e, now, before, MomentOf(db), rc);
      case Subscribes(c, mid, filters, mqtt311, flags) =>
        var _ := HandleSubscribe(db, c, mid, filters, mqtt311, flags, now);
        PeersStay(old(db.contexts), db.contexts);
        AdvancesSubscribed(e, now, before, MomentOf(db), db.tree.ret);
      case Unsubscribes(c, mid, names, mqtt311, flags) =>
        var _ := HandleUnsubscribe(db, c, mid, names, mqtt311, flags);
        AdvancesNone(e, now, before, MomentOf(db));
      case Acknowledges(c, mid) =>
        HandlePubackcomp(db, c, mid, now);
        PeersStay(old(db.contexts), db.contexts);
        AdvancesOnly(e, now, before, MomentOf(db), c);
      case Receives(c, mid) =>
        var _ := HandlePubrec(db, c, mid, now);
        PeersStay(old(db.contexts), db.contexts);
        AdvancesConfirmed(e, now, before, MomentOf(db));
      case TimesOut(timeout) =>
        Timeout(db, now, timeout);
        PeersStay(old(db.contexts), db.contexts);
        AdvancesInTime(e, now, before, MomentOf(db));
      case Writes(c, budget) =>
        var done := Write(db, c, budget, now);
        PeersStay(old(db.contexts), db.contexts);
        AdvancesWriting(e, now, before, MomentOf(db), done);
    }
  }

  /** One event. What was handed on cannot be taken back. */
  method Step(db: Database, e: Event, now: int) returns (ghost item: Option<Item>)
    requires InOrder(db) && Possible(e, |db.contexts|)
    modifies db`store, db`storeList, db`storeCount, db`nextStore, db`born, db`contexts, db`held, db`log, db`sent,
             db.tree
    ensures InOrder(db) && db.held == old(db.held) && LogGrows(old(db.log), db.log) && Extends(old(db.born), db.born)
    ensures WorldOf(db) == WorldAfter(old(WorldOf(db)), e)
    ensures StepFits(old(WorldOf(db)), e, item, db.born) && db.tree.ret == RetAfter(old(db.tree.ret), item)
    ensures db.log.routed == old(db.log.routed) + HandedOn(item)
    ensures Advances(e, now, old(MomentOf(db)), MomentOf(db))
  {
    hide InOrder, SamePeers, Fits, RetainedAfter, ValidTopic, LogGrows, Advances;
    match e {
      case Disconnects(_, _, _) =>
        item := End(db, e, now);
      case Publishes(_, _, _, _, _, _, _, _) =>
        item := Publish(db, e, now);
        PeersStay(old(db.contexts), db.contexts);
      case Releases(_, _, _, _) =>
        item := Release(db, e, now);
        PeersStay(old(db.contexts), db.contexts);
      case _ =>
        Quiet(db, e, now);
        item := None;
    }
  }

  ghost predicate RunFits(events: seq<(Event, int)>, k: nat, item: Option<Item>, born: Store)
    requires k < |events|
  {
    var w := WorldAfterAll(events[..k]);
    if Possible(events[k].0, |w.peers|) then StepFits(w, events[k].0, item, born) else item == None
  }

  // ----- the will of a connection, from the events' own fields -----

  /** Event `i` opens a connection of client `c` with a will, and no later event opens or ends one. */
  ghost predicate LeavesWill(events: seq<(Event, int)>, i: nat, c: nat, w: Will) {
    && i < |events| && c < |WorldAfterAll(events[..i]).peers| && ValidWill(Some(w))
    && events[i].0.Connects? && events[i].0.c == c && events[i].0.will == Some(w)
    && forall k | i < k < |events| ::
         !(events[k].0.Connects? && events[k].0.c == c) && !(events[k].0.Disconnects? && events[k].0.c == c)
  }

  lemma {:induction false} WillWaits(events: seq<(Event, int)>, i: nat, c: nat, w: Will)
    requires LeavesWill(events, i, c, w)
    ensures var peers := WorldAfterAll(events).peers;
            c < |peers| && peers[c].connected && peers[c].will == Some(w)
  {
    var n := |events| - 1;
    if i < n {
      assert events[..n][..i] == events[..i];
      WillWaits(events[..n], i, c, w);
    }
    hide WithFilters, WithoutFilters, Without, LeavesWill;
    LastEvent(events);
  }

  /**
    The will of a connection is published if it ends without a DISCONNECT and the client may publish it; after a
    DISCONNECT, or without the permission, nothing is.
  */
  lemma WillIsPublished(events: seq<(Event, int)>, i: nat, n: nat, c: nat, w: Will, item: Option<Item>, born: Store)
    requires n < |events| && LeavesWill(events[..n], i, c, w) && RunFits(events, n, item, born)
    requires events[n].0.Disconnects? && events[n].0.c == c
    ensures if !events[n].0.asked && events[n].0.permitted
            then item.Some? && item.value.topic == w.topic && item.value.retain == w.retain
                 && item.value.payloadlen == w.payloadlen
            else item == None
  {
    hide LeavesWill, WorldAfterAll;
    WillWaits(events[..n], i, c, w);
  }

  ghost predicate AllFit(events: seq<(Event, int)>, items: seq<Option<Item>>, born: Store) {
    |items| <= |events| && forall k: nat | k < |items| :: RunFits(events, k, items[k], born)
  }

  /** What the moment after event `k` has to do with the one before it. */
  ghost predicate Turned(events: seq<(Event, int)>, moments: seq<Moment>, k: nat)
    requires k < |events| && k + 1 < |moments|
  {
    if Possible(events[k].0, |moments[k].contexts|)
    then Advances(events[k].0, events[k].1, moments[k], moments[k + 1])
    else moments[k + 1] == moments[k]
  }

  /** The moments before and after each of the first events of a run; the clients are as the events make them. */
  ghost predicate History(events: seq<(Event, int)>, moments: seq<Moment>) {
    && 0 < |moments| <= |events| + 1 && moments[0] == Moment([], [])
    && (forall k: nat | k < |moments| :: Peers(moments[k].contexts) == WorldAfterAll(events[..k]).peers)
    && (forall k: nat | k + 1 < |moments| :: Turned(events, moments, k))
  }

  /** The first `|items|` events have happened, and have handed on `items`. */
  ghost predicate RanSoFar(db: Database, events: seq<(Event, int)>, items: seq<Option<Item>>, moments: seq<Moment>)
    reads db, db.tree
  {
    && InOrder(db) && db.held == multiset{} && AllFit(events, items, db.born)
    && WorldOf(db) == WorldAfterAll(events[..|items|]) && db.tree.ret == RetAfterAll(items)
    && db.log.routed == AllHandedOn(items)
    && History(events, moments) && |moments| == |items| + 1 && moments[|items|] == MomentOf(db)
  }

  /** The next event happens, unless its client is not known. */
  method Turn(db: Database, events: seq<(Event, int)>, i: nat, ghost items: seq<Option<Item>>,
              ghost moments: seq<Moment>)
      returns (ghost items': seq<Option<Item>>, ghost moments': seq<Moment>)
    requires RanSoFar(db, events, items, moments) && i == |items| < |events|
    modifies db`store, db`storeList, db`storeCount, db`nextStore, db`born, db`contexts, db`held, db`log, db`sent,
             db.tree
    ensures RanSoFar(db, events, items', moments') && |items'| == i + 1
  {
    hide InOrder, WorldAfter, Possible, RetAfter, HandedOn, StepFits, Extends, AllFit, Advances, History;
    ghost var item := None;
    if Possible(events[i].0, |db.contexts|) {
      item := Step(db, events[i].0, events[i].1);
    } else {
      NothingHandedOn(db.tree.ret, db.born);
    }
    items' := items + [item];
    moments' := moments + [MomentOf(db)];
    assert events[..i + 1][..i] == events[..i] && items'[..i] == items;
    MoreFit(events, items, item, old(db.born), db.born);
    MoreHistory(events, moments, MomentOf(db));
  }

  lemma MoreHistory(events: seq<(Event, int)>, moments: seq<Moment>, m: Moment)
    requires History(events, moments) && |moments| <= |events|
    requires var n := |moments| - 1;
             && Peers(m.contexts) == WorldAfterAll(events[..n + 1]).peers
             && if Possible(events[n].0, |moments[n].contexts|) then Advances(events[n].0, events[n].1, moments[n], m)
                else m == moments[n]
    ensures History(events, moments + [m])
  {
    hide Advances, Possible, WorldAfterAll, Peers;
    var n, more := |moments| - 1, moments + [m];
    forall k: nat | k + 1 < |more| ensures Turned(events, more, k) {
      if k < n { assert Turned(events, moments, k); }
    }
  }

  lemma MoreFit(events: seq<(Event, int)>, items: seq<Option<Item>>, item: Option<Item>, born: Store, born': Store)
    requires AllFit(events, items, born) && |items| < |events| && Extends(born, born')
             && RunFits(events, |items|, item, born')
    ensures AllFit(events, items + [item], born')
  {
    hide Possible, WorldAfterAll, AtOnce;
    forall k: nat | k < |items| ensures RunFits(events, k, items[k], born') {
      assert RunFits(events, k, items[k], born);
    }
  }

  lemma NothingHandedOn(ret: map<Path, nat>, born: Store)
    ensures RetAfter(ret, None) == ret && HandedOn(None) == multiset{} && Extends(born, born)
  {
  }

  /**
    Any run of events at any times, from an empty database on. The sessions, with their kinds and wills, and the
    subscriptions are those that the events alone make, and the retained messages those that the messages handed on
    make, of which each event has one at most. The moments are the history of the queues and of what was sent.
  */
  method Run(limits: Limits, mayRead: (nat, string) -> bool, events: seq<(Event, int)>)
      returns (db: Database, ghost items: seq<Option<Item>>, ghost moments: seq<Moment>)
    ensures InOrder(db) && db.held == multiset{}
    ensures History(events, moments) && |moments| == |events| + 1 && moments[|events|] == MomentOf(db)
    ensures WorldOf(db) == WorldAfterAll(events)
    ensures |items| == |events| && db.tree.ret == RetAfterAll(items) && db.log.routed == AllHandedOn(items)
    ensures forall k: nat | k < |events| :: RunFits(events, k, items[k], db.born)
  {
    hide InOrder, WorldAfterAll, RunFits, History;
    db := new Database(limits, mayRead);
    items, moments := [], [MomentOf(db)];
    FirstOnce(db, events);
    for i := 0 to |events|
      invariant RanSoFar(db, events, items, moments) && |items| == i && fresh(db) && fresh(db.tree)
    {
      items, moments := Turn(db, events, i, items, moments);
    }
    assert events[..|events|] == events;
  }

  lemma FirstOnce(db: Database, events: seq<(Event, int)>)
    requires db.Valid() && db.TreeValid() && db.contexts == [] && db.log == Log({}, multiset{}, multiset{}, multiset{})
    requires db.tree.ret == map[] && db.tree.abs == map[] && db.held == multiset{} && db.sent == []
    ensures RanSoFar(db, events, [], [MomentOf(db)])
  {
    forall m: nat ensures Accounted(db.log, db.contexts, db.nextStore, m) {
    }
  }

  // ----- two runs -----

  /** A new broker with one client, which has just connected. */
  method OneClient(limits: Limits, mayRead: (nat, string) -> bool) returns (db: Database, c: nat)
    ensures fresh(db) && fresh(db.tree) && InOrder(db) && db.tree.ret == map[] && db.limits == limits
    ensures c < |db.contexts| && db.contexts == [NewSession(true, None)] && db.log.reused == multiset{}
    ensures db.born == map[] && db.nextStore == 1 && db.tree.abs == map[] && db.held == multiset{}
    ensures db.tree.at.Keys == {Root, Sub(Root, ""), Sub(Root, "$SYS")}
  {
    hide InOrder, Keys, ResetQueueState, InStores, Follows, History, AllFit, WorldAfterAll, Advances;
    db := new Database(limits, mayRead);
    FirstOnce(db, []);
    c := NewClient(db);
    ghost var reused := db.log.reused;
    var _ := Connect(db, c, true, None);
    assert db.log.reused == reused;
  }

  /** A client that the broker forgets when it goes, whose message "a" with QoS 2 waits under packet id 1. */
  predicate AWaits(contexts: seq<Context>, m: nat, born: Store, abs: map<(nat, Path), nat>, next: nat) {
    && |contexts| == 1 && contexts[0].peer == NewSession(true, None).peer && contexts[0].lastMid < 65536
    && |contexts[0].msgs| == 1 && contexts[0].msgs[0].key == Key(m, 1, 2, false, In)
    && born == map[m := Born(1, Some("a"), 2, 1, false)] && abs == map[] && next == 2
  }

  /** A client sends the message "a" with QoS 2 and packet id 1, which waits from then on. */
  method OneWaits(limits: Limits, mayRead: (nat, string) -> bool) returns (db: Database, ghost m: nat)
    ensures fresh(db) && fresh(db.tree) && InOrder(db) && db.tree.ret == map[]
    ensures AWaits(db.contexts, m, db.born, db.tree.abs, db.nextStore) && db.log.reused == multiset{}
  {
    hide InOrder, AllIncoming, Waits, HasWaiting, Keys, Accepts, HasPlace, Answered, ValidTopic;
    var c;
    db, c := OneClient(limits, mayRead);
    NothingWaits(limits);
    ghost var reused := db.log.reused;
    var _, first := TakeIn(db, c, 1, Some("a"), 1, false, 0);
    assert db.log.reused == reused;
    m := first.m;
  }

  /** The client sends a retained message under the packet id that "a" waits under: "a" is retained in its place. */
  method SendsAgain(db: Database, ghost m: nat, topic: string)
    requires InOrder(db) && AWaits(db.contexts, m, db.born, db.tree.abs, db.nextStore)
             && ValidTopic(topic) && !StartsWithDollar(topic)
    modifies db`store, db`storeList, db`storeCount, db`nextStore, db`born, db`contexts, db`held, db`log, db`sent,
             db.tree
    ensures InOrder(db) && AWaits(db.contexts, m, db.born, db.tree.abs, db.nextStore)
    ensures db.tree.ret == old(db.tree.ret)[FullPath(topic) := m] && db.log.reused == old(db.log.reused) + multiset{m}
  {
    hide InOrder, Distributed, AllIncoming, FullPath, Tokens, Waits, HasWaiting, Keys, ValidTopic;
    OnlyEntry(db.contexts[0], m);
    PlainTop(db, topic);
    var effect := HandOn(db, 0, 1, topic, 1, 1, true, 0);
    NobodyServed(db, effect.m, topic, 1, SentBefore(effect, old(db.store)), old(db.contexts));
  }

  lemma NobodyServed(db: Database, m: nat, topic: string, qos: nat, had: seq<nat>, before: seq<Context>)
    requires Distributed(db, m, topic, qos, map[], had, before, db.contexts)
    ensures |db.contexts| == |before|
    ensures forall c: nat | c < |before| :: Untouched(before[c], db.contexts[c])
  {
    var d := Offers.Mail(db.limits, db.mayRead, m, topic, qos);
    forall c: nat | c < |before| ensures Untouched(before[c], db.contexts[c]) {
      assert Offers.Served(d, map[], had, before[c], db.contexts[c], c);
    }
  }

  /**
    Before the message "a" is released, the client sends a retained one for "b" with QoS 1 under the same packet id. The
    retained message of "b" is then the one that was sent for "a", without the flag.
  */
  method RetainedUnderAnother(limits: Limits, mayRead: (nat, string) -> bool) returns (db: Database, ghost m: nat)
    ensures fresh(db) && fresh(db.tree) && InOrder(db) && db.tree.ret == map[FullPath("b") := m]
    ensures AWaits(db.contexts, m, db.born, db.tree.abs, db.nextStore) && db.log.reused[m] == 1
  {
    hide InOrder, FullPath, Tokens, ValidTopic;
    db, m := OneWaits(limits, mayRead);
    PlainTopics();
    SendsAgain(db, m, "b");
  }

  /** And then one for "c": now two topics retain the message that was sent for a third. */
  method RetainedTwice(limits: Limits, mayRead: (nat, string) -> bool) returns (db: Database, ghost m: nat)
    ensures fresh(db) && fresh(db.tree) && InOrder(db)
    ensures db.tree.ret == map[FullPath("b") := m][FullPath("c") := m]
    ensures AWaits(db.contexts, m, db.born, db.tree.abs, db.nextStore)
  {
    hide InOrder, FullPath, Tokens, ValidTopic;
    db, m := RetainedUnderAnother(limits, mayRead);
    PlainTopics();
    SendsAgain(db, m, "c");
  }

  lemma PlainTopics()
    ensures ValidTopic("b") && ValidTopic("c") && !StartsWithDollar("b") && !StartsWithDollar("c")
  {
  }

  lemma NothingWaits(limits: Limits)
    ensures !Waits(Keys(NOBODY.msgs), 1) && Accepts(NewSession(true, None), 2, limits) && ValidTopic("a")
            && ValidTopic("b")
  {
  }

  lemma OnlyEntry(s: Context, m: nat)
    requires |s.msgs| == 1 && s.msgs[0].key.store == m && s.msgs[0].key.dir == In && s.msgs[0].key.mid == 1
    ensures Waits(Keys(s.msgs), 1) && forall x: nat :: HasWaiting(s, x) <==> x == m
  {
    assert Keys(s.msgs)[0] == s.msgs[0].key;
  }

  /**
    With one place in flight and one in the queue behind it, the third message with QoS 2 is dropped. It stays in the
    store, without a reference.
  */
  method DroppedStays(limits: Limits, mayRead: (nat, string) -> bool) returns (db: Database, ghost m: nat)
    requires limits.maxInflight == 1 && limits.maxQueued == 1
    ensures InOrder(db) && m in db.store && db.store[m].refCount == 0 && m !in db.log.accepted
    ensures !Referred(db.contexts, db.tree.ret, m)
  {
    hide InOrder, ValidTopic, Referred, Keys, Waits, Accepts, HasPlace, Answered;
    var c;
    db, c := OneClient(limits, mayRead);
    NothingWaits(limits);
    var _, first := TakeIn(db, c, 1, Some("a"), 1, false, 0);
    Filled(db.contexts[c], limits, 1);
    var _, second := TakeIn(db, c, 2, Some("a"), 1, false, 0);
    Filled(db.contexts[c], limits, 2);
    m := db.nextStore;
    NextIsNew(db);
    var _, third := TakeIn(db, c, 3, Some("a"), 1, false, 0);
    ReferencesCounted(db, m);
  }

  lemma Filled(s: Context, limits: Limits, n: nat)
    requires limits.maxInflight == 1 && limits.maxQueued == 1 && s.peer.connected
    requires |s.msgs| == s.msgCount12 == n && 1 <= n <= 2 && forall k | 0 <= k < n :: s.msgs[k].key.mid == k + 1
    ensures !Waits(Keys(s.msgs), n + 1) && (Accepts(s, 2, limits) <==> n == 1)
  {
  }

  lemma NextIsNew(db: Database)
    requires InOrder(db)
    ensures db.nextStore !in db.log.accepted
  {
    assert Accounted(db.log, db.contexts, db.nextStore, db.nextStore);
  }

  /**
    A retained publication of a topic with a leading '$' is lost until somebody has subscribed to something under that
    first level.
  */
  method RetainedOnlyAfter(limits: Limits, mayRead: (nat, string) -> bool) returns (db: Database)
    ensures InOrder(db) && db.tree.ret.Keys == {FullPath("$x")}
  {
    hide InOrder, FullPath, Tokens, Keys, GotRetainedOnly, Database.GetsRetained, Grantable, ValidTopic, RetainedIf;
    var c;
    db, c := OneClient(limits, mayRead);
    DollarTop(db.tree.ret, db.tree.at);
    var _ := PublishRetained(db, c, "$x");
    assert db.tree.ret == map[];
    var _, _ := AddSubscription(db, c, "$x", 0, false, 0);
    TopThere(db, c, "$x");
    DollarTop(db.tree.ret, db.tree.at);
    var _ := PublishRetained(db, c, "$x");
  }

  method PublishRetained(db: Database, c: nat, topic: string) returns (ghost m: nat)
    requires InOrder(db) && c < |db.contexts| && ValidTopic(topic)
    modifies db`store, db`storeList, db`storeCount, db`nextStore, db`born, db`contexts, db`held, db`log, db`sent,
             db.tree
    ensures InOrder(db) && |db.contexts| == |old(db.contexts)|
    ensures db.tree.ret == RetainedIf(old(db.tree.ret), old(db.tree.at), topic, true, m, 1)
            && db.tree.abs == old(db.tree.abs)
  {
    hide InOrder, Distributed, FullPath, Waits, RetainedIf, Keys;
    var effect := HandOn(db, c, 0, topic, 0, 1, true, 0);
    m := effect.m;
  }

  lemma DollarTop(ret: map<Path, nat>, at: map<Path, nat>)
    ensures ValidTopic("$x") && Grantable("$x", 0)
    ensures at.Keys == {Root, Sub(Root, ""), Sub(Root, "$SYS")} ==>
              forall m :: RetainedIf(ret, at, "$x", true, m, 1) == ret
    ensures Sub(Root, Tokens("$x")[0]) in at ==>
              forall m :: RetainedIf(ret, at, "$x", true, m, 1) == ret[FullPath("$x") := m]
  {
    assert ['x'] + "" == "x" && ['$'] + "x" == "$x" && "x"[1..] == "" && "$x"[1..] == "x";
    assert Split("x") == [['x'] + Split("")[0]] + Split("")[1..] == ["x"];
    assert Split("$x") == [['$'] + Split("x")[0]] + Split("x")[1..] == ["$x"];
  }

  lemma TopThere(db: Database, c: nat, filter: string)
    requires InOrder(db) && (c, FullPath(filter)) in db.tree.abs
    ensures Sub(Root, Tokens(filter)[0]) in db.tree.at
  {
    hide DbOk, Once, RetainedAs;
    assert Subscribed(db.tree.nodes, db.tree.at, (c, FullPath(filter)));
    PrefixNamed(db.tree.nodes, db.tree.path, db.tree.at, Sub(Root, Tokens(filter)[0]), Tokens(filter));
  }

  // ----- what holds after every run -----

  /**
    A QoS 2 message that was accepted is handed on exactly once when its session let go of it, and never before;
    this can fail only by one more for each time that its packet id was reused for a QoS 1 message.
  */
  lemma ExactlyOnce(db: Database, m: nat)
    requires InOrder(db) && m in db.log.accepted
    ensures db.log.routed[m] == 1 + db.log.reused[m] - Waiting(db.contexts, m) - db.log.discarded[m]
    ensures (exists c: nat :: c < |db.contexts| && HasWaiting(db.contexts[c], m)) <==> Waiting(db.contexts, m) > 0
    ensures db.log.reused[m] == 0 ==> db.log.routed[m] <= 1
    ensures db.log.reused[m] == 0 ==>
              (db.log.routed[m] == 1 <==> Waiting(db.contexts, m) == 0 && db.log.discarded[m] == 0)
  {
    assert Accounted(db.log, db.contexts, db.nextStore, m);
    if c: nat :| c < |db.contexts| && HasWaiting(db.contexts[c], m) {
      HoldsWaits(db.contexts, c, m);
    }
    if Waiting(db.contexts, m) > 0 {
      var c := Holder(db.contexts, m);
    }
  }

  lemma {:induction false} Holder(contexts: seq<Context>, m: nat) returns (c: nat)
    requires Waiting(contexts, m) > 0
    ensures c < |contexts| && HasWaiting(contexts[c], m)
  {
    var keys := Keys(contexts[0].msgs);
    if Count(keys, RefersIn(m)) > 0 {
      c := 0;
      if forall i | 0 <= i < |keys| :: !RefersIn(m)(keys[i]) {
        CountZero(keys, RefersIn(m));
      }
      var i :| 0 <= i < |keys| && RefersIn(m)(keys[i]);
      assert contexts[0].msgs[i].key == keys[i];
    } else {
      c := Holder(contexts[1..], m);
      c := c + 1;
    }
  }

  /** An entry of some queue, or some node, points to a message. */
  ghost predicate Referred(contexts: seq<Context>, ret: map<Path, nat>, m: nat) {
    (exists c, i :: 0 <= c < |contexts| && 0 <= i < |contexts[c].msgs| && contexts[c].msgs[i].key.store == m)
    || exists p :: p in ret && ret[p] == m
  }

  /**
    Between events a message counts the queue entries and retained nodes that point to it, so that just those that
    nothing points to have a count of 0. A message is freed when it loses its last reference; one that never had any,
    as that of a QoS 2 PUBLISH that was dropped, stays.
  */
  lemma ReferencesCounted(db: Database, m: nat)
    requires InOrder(db) && db.held == multiset{}
    ensures m in db.store ==> db.store[m].refCount == CountAll(db.contexts, Refers(m)) + RetCount(db.tree.ret, m)
    ensures m in db.store ==> (db.store[m].refCount > 0 <==> Referred(db.contexts, db.tree.ret, m))
    ensures m !in db.store ==> !Referred(db.contexts, db.tree.ret, m)
    ensures db.storeCount == |db.store|
  {
    assert CountedRight(db.store, db.contexts, db.tree.ret, db.held, m);
    CountedReferred(db.contexts, db.tree.ret, m);
    ListLength(db.storeList, db.store.Keys);
    assert |db.store| == |db.store.Keys|;
  }

  lemma CountedReferred(contexts: seq<Context>, ret: map<Path, nat>, m: nat)
    ensures CountAll(contexts, Refers(m)) + RetCount(ret, m) > 0 <==> Referred(contexts, ret, m)
  {
    CountedEntries(contexts, m);
    var paths := set p | p in ret && ret[p] == m;
    assert RetCount(ret, m) == |paths|;
    if p :| p in ret && ret[p] == m { assert p in paths; }
    if |paths| > 0 {
      var p :| p in paths;
    }
  }

  lemma {:induction false} CountedEntries(contexts: seq<Context>, m: nat)
    ensures CountAll(contexts, Refers(m)) > 0 <==>
              exists c, i :: 0 <= c < |contexts| && 0 <= i < |contexts[c].msgs| && contexts[c].msgs[i].key.store == m
  {
    if contexts != [] {
      var keys := Keys(contexts[0].msgs);
      CountedEntries(contexts[1..], m);
      if c, i :| 0 <= c < |contexts| && 0 <= i < |contexts[c].msgs| && contexts[c].msgs[i].key.store == m {
        if c == 0 {
          CountPositive(keys, i, Refers(m));
        } else {
          assert contexts[1..][c - 1] == contexts[c];
        }
      }
      if i :| 0 <= i < |keys| && keys[i].store == m {
        assert contexts[0].msgs[i].key.store == m;
      } else {
        CountZero(keys, Refers(m));
      }
    }
  }

  lemma {:induction false} ListLength(list: seq<nat>, s: set<nat>)
    requires NoDups(list) && forall m :: m in list <==> m in s
    ensures |list| == |s|
  {
    if list == [] {
      assert s == {};
    } else {
      assert list[0] in s && list[0] !in list[1..];
      assert forall m :: m in list[1..] <==> m in s - {list[0]};
      ListLength(list[1..], s - {list[0]});
    }
  }

  /** No queue entry and no retained node points at a message that was freed. */
  lemma NothingDangles(db: Database)
    requires InOrder(db)
    ensures forall c, i | 0 <= c < |db.contexts| && 0 <= i < |db.contexts[c].msgs| ::
              db.contexts[c].msgs[i].key.store in db.store
    ensures forall r | r in db.tree.nodes && db.tree.nodes[r].retained.Some? ::
              db.tree.nodes[r].retained.value in db.store
  {
    forall c, i | 0 <= c < |db.contexts| && 0 <= i < |db.contexts[c].msgs|
        ensures db.contexts[c].msgs[i].key.store in db.store {
      EntryStored(db.store, db.contexts, db.tree.ret, db.held, c, i);
    }
    forall r | r in db.tree.nodes && db.tree.nodes[r].retained.Some?
        ensures db.tree.nodes[r].retained.value in db.store {
      db.tree.RetainedAt(r);
      RetainedStored(db.store, db.contexts, db.tree.ret, db.held, db.tree.path[r]);
    }
  }

  /** The counters of every session, the bound on its tracked messages, and what may wait on its way in. */
  lemma QueuesInOrder(db: Database, c: nat)
    requires InOrder(db) && c < |db.contexts|
    ensures var s := db.contexts[c];
            && IncomingOk(Keys(s.msgs))
            && (s.peer.named ==>
                  s.msgCount == |s.msgs| && s.msgCount12 == Count12(Keys(s.msgs))
                  && s.last == (if s.msgs == [] then None else Some(|s.msgs| - 1)))
            && (s.peer.named && db.limits.maxInflight > 0 && db.limits.maxQueued > 0
                ==> Count12(Keys(s.msgs)) <= db.limits.maxInflight + db.limits.maxQueued)
  {
    assert Fine(db.limits, db.store, db.contexts, c);
  }
}
