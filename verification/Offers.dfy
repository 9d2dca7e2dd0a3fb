/** The offers of a message to the clients that subscribe to its topic, and what becomes of them. */
module Offers {
  import opened Tree
  import opened Search
  import opened Session

  /** A message on its way to the clients that may read its topic. */
  datatype Mail = Mail(limits: Limits, mayRead: (nat, string) -> bool, m: nat, topic: string, qos: nat)

  /** An offer by a subscription with `clientQos` makes the queue of client `c` longer. */
  predicate Wanted(d: Mail, s: Context, c: nat, clientQos: nat) {
    Takes(s, d.mayRead(c, d.topic), clientQos, d.qos, d.limits)
  }

  ghost predicate GotCopy(d: Mail, s0: Context, s: Context, clientQos: nat) {
    GotOne(s0, s, d.m, MsgQos(clientQos, d.qos, d.limits), d.limits)
  }

  /** One offer: taken if it is wanted, but only once by each client when duplicates are to be avoided. */
  ghost predicate OfferTurn(d: Mail, c: nat, clientQos: nat, before: seq<Context>, dests: seq<nat>, after: seq<Context>,
                            dests': seq<nat>) {
    && Only(c, before, after)
    && if Wanted(d, before[c], c, clientQos) && (d.limits.allowDuplicates || c !in dests)
       then GotCopy(d, before[c], after[c], clientQos)
            && dests' == if d.limits.allowDuplicates then dests else dests + [c]
       else Untouched(before[c], after[c]) && dests' == dests
  }

  /** The offers made so far, one after the other, to clients by their subscriptions. */
  ghost predicate Offered(d: Mail, abs: map<(nat, Path), nat>, first: seq<Context>, had: seq<nat>,
                          offers: seq<(nat, Path)>, contexts: seq<Context>, dests: seq<nat>)
    decreases |offers|
  {
    if offers == [] then contexts == first && dests == had
    else
      var o := offers[|offers| - 1];
      o in abs && exists before, ds ::
        Offered(d, abs, first, had, offers[..|offers| - 1], before, ds)
            && OfferTurn(d, o.0, abs[o], before, ds, contexts, dests)
  }

  lemma OfferedMore(d: Mail, abs: map<(nat, Path), nat>, first: seq<Context>, had: seq<nat>, offers: seq<(nat, Path)>,
                    before: seq<Context>, ds: seq<nat>, o: (nat, Path), contexts: seq<Context>, dests: seq<nat>)
    requires Offered(d, abs, first, had, offers, before, ds) && o in abs
             && OfferTurn(d, o.0, abs[o], before, ds, contexts, dests)
    ensures Offered(d, abs, first, had, offers + [o], contexts, dests)
  {
    assert (offers + [o])[..|offers|] == offers;
  }

  // ----- what a client gets -----

  /** The offers are those of the subscriptions that a topic reaches, each made once. */
  ghost predicate Matching(offers: seq<(nat, Path)>, abs: map<(nat, Path), nat>, topic: string) {
    && (forall i, j | 0 <= i < j < |offers| :: offers[i] != offers[j])
    && (forall o :: o in offers <==> o in abs && Reached(o.1, topic))
  }

  /** Whether some subscription of client `c` lets it have the message. */
  ghost predicate Wants(d: Mail, abs: map<(nat, Path), nat>, s: Context, c: nat) {
    exists p :: (c, p) in abs && Reached(p, d.topic) && Wanted(d, s, c, abs[(c, p)])
  }

  /** One copy for a client that has a use for it and was not sent it before, and nothing for any other client. */
  ghost predicate OneCopy(d: Mail, abs: map<(nat, Path), nat>, had: seq<nat>, before: Context, after: Context, c: nat) {
    if c !in had && Wants(d, abs, before, c)
    then exists p :: (c, p) in abs && Reached(p, d.topic) && GotCopy(d, before, after, abs[(c, p)])
    else Untouched(before, after)
  }

  /** One copy for each of the subscriptions at `paths` whose offer is wanted when its turn comes. */
  ghost predicate Copies(d: Mail, abs: map<(nat, Path), nat>, paths: seq<Path>, before: Context, after: Context, c: nat)
    decreases |paths|
  {
    if paths == [] then after == before
    else
      var k := (c, paths[|paths| - 1]);
      k in abs && exists s ::
        && Copies(d, abs, paths[..|paths| - 1], before, s, c)
        && if Wanted(d, s, c, abs[k]) then GotCopy(d, s, after, abs[k]) else Untouched(s, after)
  }

  /** Each subscription that the topic reaches has its turn once. */
  ghost predicate EachOnce(paths: seq<Path>, abs: map<(nat, Path), nat>, topic: string, c: nat) {
    && (forall i, j | 0 <= i < j < |paths| :: paths[i] != paths[j])
    && (forall p :: p in paths <==> (c, p) in abs && Reached(p, topic))
  }

  /** What a distribution does for one client. */
  ghost predicate Served(d: Mail, abs: map<(nat, Path), nat>, had: seq<nat>, before: Context, after: Context, c: nat) {
    if d.limits.allowDuplicates then exists paths ::
          EachOnce(paths, abs, d.topic, c) && Copies(d, abs, paths, before, after, c)
    else OneCopy(d, abs, had, before, after, c)
  }

  ghost predicate AllServed(d: Mail, abs: map<(nat, Path), nat>, had: seq<nat>, before: seq<Context>,
                            after: seq<Context>) {
    |after| == |before| && forall c: nat {:trigger Served(d, abs, had, before[c], after[c], c)} | c < |after| ::
                             Served(d, abs, had, before[c], after[c], c)
  }

  // ----- without duplicates -----

  /** How far the offers have come for one client: at most one copy, and one as soon as an offer was taken. */
  ghost predicate Progress(d: Mail, abs: map<(nat, Path), nat>, had: seq<nat>, offers: seq<(nat, Path)>, s0: Context,
                           s: Context, dests: seq<nat>, c: nat) {
    if c !in had && exists p :: (c, p) in offers && (c, p) in abs && Wanted(d, s0, c, abs[(c, p)])
    then c in dests && exists p :: (c, p) in offers && (c, p) in abs && GotCopy(d, s0, s, abs[(c, p)])
    else (c in dests <==> c in had) && Untouched(s0, s)
  }

  lemma {:induction false} OfferedProgress(d: Mail, abs: map<(nat, Path), nat>, first: seq<Context>, had: seq<nat>,
                                           offers: seq<(nat, Path)>, contexts: seq<Context>, dests: seq<nat>, c: nat)
    requires Offered(d, abs, first, had, offers, contexts, dests) && !d.limits.allowDuplicates && c < |first|
    ensures |contexts| == |first| && Progress(d, abs, had, offers, first[c], contexts[c], dests, c)
    decreases |offers|
  {
    hide Progress, OfferTurn;
    if offers == [] {
      NothingYet(d, abs, had, first[c], c);
    } else {
      var n := |offers| - 1;
      var o := offers[n];
      var before, ds :| Offered(d, abs, first, had, offers[..n], before, ds)
          && OfferTurn(d, o.0, abs[o], before, ds, contexts, dests);
      hide Offered;
      OfferedProgress(d, abs, first, had, offers[..n], before, ds, c);
      assert offers == offers[..n] + [o];
      OneMoreOffer(d, abs, had, offers[..n], o, first[c], before, ds, contexts, dests, c);
    }
  }

  lemma NothingYet(d: Mail, abs: map<(nat, Path), nat>, had: seq<nat>, s: Context, c: nat)
    ensures Progress(d, abs, had, [], s, s, had, c)
  {
  }

  lemma OneMoreOffer(d: Mail, abs: map<(nat, Path), nat>, had: seq<nat>, offers: seq<(nat, Path)>, o: (nat, Path),
                     s0: Context, before: seq<Context>, ds: seq<nat>, after: seq<Context>, dests: seq<nat>, c: nat)
    requires !d.limits.allowDuplicates && c < |before| && o in abs
             && OfferTurn(d, o.0, abs[o], before, ds, after, dests)
    requires Progress(d, abs, had, offers, s0, before[c], ds, c)
    ensures |after| == |before| && Progress(d, abs, had, offers + [o], s0, after[c], dests, c)
  {
    if c != o.0 {
      assert after[c] == before[c];
      assert forall p :: (c, p) in offers + [o] <==> (c, p) in offers;
    } else {
      UntouchedThrough(d, s0, before[c], after[c], abs[o], c);
      hide GotCopy, Wanted, Untouched;
      assert forall p :: (c, p) in offers + [o] <==> (c, p) in offers || p == o.1;
      assert o == (c, o.1);
    }
  }

  /** Turned down before, a client is in the same position as at the beginning. */
  lemma UntouchedThrough(d: Mail, s0: Context, s1: Context, s2: Context, clientQos: nat, c: nat)
    ensures Untouched(s0, s1) ==> (Wanted(d, s1, c, clientQos) <==> Wanted(d, s0, c, clientQos))
    ensures Untouched(s0, s1) && GotCopy(d, s1, s2, clientQos) ==> GotCopy(d, s0, s2, clientQos)
    ensures Untouched(s0, s1) && Untouched(s1, s2) ==> Untouched(s0, s2)
    ensures forall q | GotCopy(d, s0, s1, q) && Untouched(s1, s2) :: GotCopy(d, s0, s2, q)
  {
  }

  // ----- with duplicates -----

  /** The paths at which a client is offered the message, in their order. */
  function PathsOf(offers: seq<(nat, Path)>, c: nat): seq<Path> {
    if offers == [] then []
    else PathsOf(offers[..|offers| - 1], c) + if offers[|offers| - 1].0 == c then [offers[|offers| - 1].1] else []
  }

  lemma {:induction false} OfferedCopies(d: Mail, abs: map<(nat, Path), nat>, first: seq<Context>, had: seq<nat>,
                                         offers: seq<(nat, Path)>, contexts: seq<Context>, dests: seq<nat>, c: nat)
    requires Offered(d, abs, first, had, offers, contexts, dests) && d.limits.allowDuplicates && c < |first|
    ensures |contexts| == |first| && Copies(d, abs, PathsOf(offers, c), first[c], contexts[c], c)
    decreases |offers|
  {
    hide GotCopy, Wanted, Untouched;
    if offers != [] {
      var n := |offers| - 1;
      var o := offers[n];
      var before, ds :| Offered(d, abs, first, had, offers[..n], before, ds)
          && OfferTurn(d, o.0, abs[o], before, ds, contexts, dests);
      OfferedCopies(d, abs, first, had, offers[..n], before, ds, c);
      hide Offered, Copies;
      if o.0 == c {
        MoreCopies(d, abs, PathsOf(offers[..n], c), o.1, first[c], before[c], contexts[c], c);
      } else {
        assert PathsOf(offers[..n], c) + [] == PathsOf(offers[..n], c) && contexts[c] == before[c];
      }
    }
  }

  lemma MoreCopies(d: Mail, abs: map<(nat, Path), nat>, paths: seq<Path>, p: Path, s0: Context, s1: Context,
                   s2: Context, c: nat)
    requires Copies(d, abs, paths, s0, s1, c) && (c, p) in abs
    requires if Wanted(d, s1, c, abs[(c, p)]) then GotCopy(d, s1, s2, abs[(c, p)]) else Untouched(s1, s2)
    ensures Copies(d, abs, paths + [p], s0, s2, c)
  {
    assert (paths + [p])[..|paths|] == paths;
  }

  lemma {:induction false} PathsInOffers(offers: seq<(nat, Path)>, c: nat)
    requires forall i, j | 0 <= i < j < |offers| :: offers[i] != offers[j]
    ensures var paths := PathsOf(offers, c);
            (forall p :: p in paths <==> (c, p) in offers) && forall i, j | 0 <= i < j < |paths| :: paths[i] != paths[j]
  {
    if offers != [] {
      var n := |offers| - 1;
      var paths := PathsOf(offers[..n], c);
      PathsInOffers(offers[..n], c);
      assert offers == offers[..n] + [offers[n]];
      assert offers[n] !in offers[..n];
      if offers[n].0 == c {
        assert offers[n] == (c, offers[n].1);
        assert forall i | 0 <= i < n :: offers[..n][i] != offers[n];
        assert offers[n].1 !in paths;
      }
    }
  }

  // ----- all together -----

  /** When all offers are made, every client has been served. */
  lemma AllOffersMade(d: Mail, abs: map<(nat, Path), nat>, first: seq<Context>, had: seq<nat>, offers: seq<(nat, Path)>,
                      contexts: seq<Context>, dests: seq<nat>)
    requires Offered(d, abs, first, had, offers, contexts, dests) && Matching(offers, abs, d.topic)
    ensures AllServed(d, abs, had, first, contexts)
  {
    hide Offered, GotCopy, Wanted, Untouched, Copies;
    OfferedCount(d, abs, first, had, offers, contexts, dests);
    forall c: nat | c < |contexts| ensures Served(d, abs, had, first[c], contexts[c], c) {
      if d.limits.allowDuplicates {
        OfferedCopies(d, abs, first, had, offers, contexts, dests, c);
        PathsInOffers(offers, c);
        assert EachOnce(PathsOf(offers, c), abs, d.topic, c);
      } else {
        OfferedProgress(d, abs, first, had, offers, contexts, dests, c);
        assert forall p :: (c, p) in offers <==> (c, p) in abs && Reached(p, d.topic);
      }
    }
  }

  lemma {:induction false} OfferedCount(d: Mail, abs: map<(nat, Path), nat>, first: seq<Context>, had: seq<nat>,
                                        offers: seq<(nat, Path)>, contexts: seq<Context>, dests: seq<nat>)
    requires Offered(d, abs, first, had, offers, contexts, dests)
    ensures |contexts| == |first| && AllIncoming(first, contexts)
    decreases |offers|
  {
    hide Wanted;
    if offers == [] {
      NothingChanged(first);
    } else {
      var n := |offers| - 1;
      var o := offers[n];
      var before, ds :| Offered(d, abs, first, had, offers[..n], before, ds)
          && OfferTurn(d, o.0, abs[o], before, ds, contexts, dests);
      OfferedCount(d, abs, first, had, offers[..n], before, ds);
      hide AllIncoming, Offered;
      OfferIncoming(d, o.0, abs[o], before, ds, contexts, dests);
      AllIncomingTrans(first, before, contexts);
    }
  }

  lemma OfferIncoming(d: Mail, c: nat, clientQos: nat, before: seq<Context>, ds: seq<nat>, after: seq<Context>,
                      dests: seq<nat>)
    requires OfferTurn(d, c, clientQos, before, ds, after, dests)
    ensures AllIncoming(before, after)
  {
    forall e: nat ensures StillIncoming(before, after, e) {
    }
  }

  // ----- what the copies are like, and who cannot be missed -----

  /** The QoS of a copy: that of the subscription, or the lower one of the two without the upgrade. */
  predicate RightQos(qos: nat, granted: nat, sent: nat, upgrade: bool) {
    if upgrade then qos == granted else qos <= granted && qos <= sent && (qos == granted || qos == sent)
  }

  /**
    The queue has room: a connected client's for what is in flight and what waits behind it, an absent one's for what
    waits. A limit of 0 is none.
  */
  predicate Room(s: Context, qos: nat, limits: Limits) {
    if s.peer.connected then
      qos == 0 || limits.maxInflight == 0 || limits.maxQueued == 0
      || s.msgCount12 < limits.maxInflight + limits.maxQueued
    else (qos > 0 || limits.queueQos0) && (limits.maxQueued == 0 || s.msgCount12 < limits.maxQueued)
  }

  /** A copy of the message for client `c`, by one of its subscriptions. */
  ghost predicate RightCopy(d: Mail, abs: map<(nat, Path), nat>, c: nat, e: Entry) {
    && e.key.store == d.m && e.key.dir == Out && !e.key.retain && !e.dup && (e.key.mid > 0 <==> e.key.qos > 0)
    && exists p :: (c, p) in abs && Reached(p, d.topic)
                   && RightQos(e.key.qos, abs[(c, p)], d.qos, d.limits.upgradeQos)
  }

  /** Client `c` may have the message by its subscription at `p`, and has room for it. */
  ghost predicate HasRoom(d: Mail, abs: map<(nat, Path), nat>, s: Context, c: nat, p: Path) {
    && (c, p) in abs && Reached(p, d.topic)
    && forall qos: nat | RightQos(qos, abs[(c, p)], d.qos, d.limits.upgradeQos) :: Room(s, qos, d.limits)
  }

  /**
    The queue is longer by right copies, by one at most without duplicates; and it is longer if the client may read the
    topic, has room for a copy, and was not sent the message before.
  */
  ghost predicate ServedRight(d: Mail, abs: map<(nat, Path), nat>, had: seq<nat>, before: Context, after: Context,
                              c: nat) {
    && |before.msgs| <= |after.msgs| && after.msgs[..|before.msgs|] == before.msgs
    && (forall k | |before.msgs| <= k < |after.msgs| :: RightCopy(d, abs, c, after.msgs[k]))
    && (!d.limits.allowDuplicates ==> |after.msgs| <= |before.msgs| + 1)
    && (|after.msgs| > |before.msgs| ==> before.peer.named && d.mayRead(c, d.topic))
    && (|after.msgs| > |before.msgs| ==> PlacedRight(before, after.msgs[|before.msgs|], d.limits))
    && ((before.peer.named && d.mayRead(c, d.topic) && (d.limits.allowDuplicates || c !in had)
         && (exists p :: HasRoom(d, abs, before, c, p)))
        ==> |after.msgs| > |before.msgs|)
  }

  /** A copy waits if its client is absent, or if the messages in flight are as many as may be. */
  predicate PlacedRight(s: Context, e: Entry, limits: Limits) {
    if !s.peer.connected || (e.key.qos > 0 && limits.maxInflight > 0 && s.msgCount12 >= limits.maxInflight)
    then e.state == Queued
    else e.state == if e.key.qos == 0 then PublishQos0 else if e.key.qos == 1 then PublishQos1 else PublishQos2
  }

  ghost predicate AllRight(d: Mail, abs: map<(nat, Path), nat>, had: seq<nat>, before: seq<Context>,
                           after: seq<Context>) {
    |after| == |before| && forall c: nat {:trigger ServedRight(d, abs, had, before[c], after[c], c)} | c < |after| ::
                             ServedRight(d, abs, had, before[c], after[c], c)
  }

  lemma AllServedRight(d: Mail, abs: map<(nat, Path), nat>, had: seq<nat>, before: seq<Context>, after: seq<Context>)
    requires AllServed(d, abs, had, before, after)
    ensures AllRight(d, abs, had, before, after)
  {
    hide Served, ServedRight;
    forall c: nat | c < |after| ensures ServedRight(d, abs, had, before[c], after[c], c) {
      assert Served(d, abs, had, before[c], after[c], c);
      OneServedRight(d, abs, had, before[c], after[c], c);
    }
  }

  lemma OneServedRight(d: Mail, abs: map<(nat, Path), nat>, had: seq<nat>, before: Context, after: Context, c: nat)
    requires Served(d, abs, had, before, after, c)
    ensures ServedRight(d, abs, had, before, after, c)
  {
    hide Copies, OneCopy, EachOnce, ServedRight;
    if d.limits.allowDuplicates {
      var paths :| EachOnce(paths, abs, d.topic, c) && Copies(d, abs, paths, before, after, c);
      CopiesRight(d, abs, paths, before, after, c);
      EachRight(d, abs, had, paths, before, after, c);
    } else {
      OneRight(d, abs, had, before, after, c);
    }
  }

  lemma OneRight(d: Mail, abs: map<(nat, Path), nat>, had: seq<nat>, before: Context, after: Context, c: nat)
    requires OneCopy(d, abs, had, before, after, c) && !d.limits.allowDuplicates
    ensures ServedRight(d, abs, had, before, after, c)
  {
    if p :| HasRoom(d, abs, before, c, p) { RoomWanted(d, abs, before, c, p); }
    hide HasRoom, Reached;
    if c !in had && Wants(d, abs, before, c) {
      var p :| (c, p) in abs && Reached(p, d.topic) && GotCopy(d, before, after, abs[(c, p)]);
      CopyRight(d, abs, before, after, c, p);
    }
  }

  lemma RoomWanted(d: Mail, abs: map<(nat, Path), nat>, s: Context, c: nat, p: Path)
    requires HasRoom(d, abs, s, c, p)
    ensures (c, p) in abs && Reached(p, d.topic)
            && (s.peer.named && d.mayRead(c, d.topic) ==> Wanted(d, s, c, abs[(c, p)]))
  {
    hide Reached;
    assert RightQos(MsgQos(abs[(c, p)], d.qos, d.limits), abs[(c, p)], d.qos, d.limits.upgradeQos);
  }

  lemma CopyRight(d: Mail, abs: map<(nat, Path), nat>, before: Context, after: Context, c: nat, p: Path)
    requires (c, p) in abs && Reached(p, d.topic) && GotCopy(d, before, after, abs[(c, p)])
    ensures RightCopy(d, abs, c, after.msgs[|before.msgs|])
            && PlacedRight(before, after.msgs[|before.msgs|], d.limits)
  {
    hide Reached;
    assert RightQos(MsgQos(abs[(c, p)], d.qos, d.limits), abs[(c, p)], d.qos, d.limits.upgradeQos);
  }

  /** The same for several copies, where the topic need not be looked at. */
  ghost predicate SomeRight(d: Mail, abs: map<(nat, Path), nat>, paths: seq<Path>, before: Context, after: Context,
                            c: nat) {
    && |before.msgs| <= |after.msgs| && after.msgs[..|before.msgs|] == before.msgs
    && (forall k | |before.msgs| <= k < |after.msgs| :: CopyAt(d, abs, paths, c, after.msgs[k]))
    && (|after.msgs| > |before.msgs| ==> before.peer.named && d.mayRead(c, d.topic)) && after.peer == before.peer
    && (|after.msgs| > |before.msgs| ==> PlacedRight(before, after.msgs[|before.msgs|], d.limits))
    && (|after.msgs| == |before.msgs| ==>
          Untouched(before, after) && forall p | p in paths :: (c, p) in abs && !Wanted(d, before, c, abs[(c, p)]))
  }

  ghost predicate CopyAt(d: Mail, abs: map<(nat, Path), nat>, paths: seq<Path>, c: nat, e: Entry) {
    && e.key.store == d.m && !e.key.retain && FreshCopy(e)
    && exists p :: p in paths && (c, p) in abs && e.key.qos == MsgQos(abs[(c, p)], d.qos, d.limits)
  }

  lemma {:induction false} CopiesRight(d: Mail, abs: map<(nat, Path), nat>, paths: seq<Path>, before: Context,
                                       after: Context, c: nat)
    requires Copies(d, abs, paths, before, after, c)
    ensures SomeRight(d, abs, paths, before, after, c)
    decreases |paths|
  {
    hide SomeRight;
    if paths == [] {
      NoneRight(d, abs, before, c);
    } else {
      var n := |paths| - 1;
      var k := (c, paths[n]);
      var s :| Copies(d, abs, paths[..n], before, s, c)
          && if Wanted(d, s, c, abs[k]) then GotCopy(d, s, after, abs[k]) else Untouched(s, after);
      CopiesRight(d, abs, paths[..n], before, s, c);
      assert paths == paths[..n] + [paths[n]];
      OneMoreRight(d, abs, paths[..n], paths[n], before, s, after, c);
    }
  }

  lemma NoneRight(d: Mail, abs: map<(nat, Path), nat>, s: Context, c: nat)
    ensures SomeRight(d, abs, [], s, s, c)
  {
  }

  lemma OneMoreRight(d: Mail, abs: map<(nat, Path), nat>, paths: seq<Path>, p: Path, s0: Context, s1: Context,
                     s2: Context, c: nat)
    requires SomeRight(d, abs, paths, s0, s1, c) && (c, p) in abs
    requires if Wanted(d, s1, c, abs[(c, p)]) then GotCopy(d, s1, s2, abs[(c, p)]) else Untouched(s1, s2)
    ensures SomeRight(d, abs, paths + [p], s0, s2, c)
  {
    hide FreshCopy, Accepts, MsgQos, PlacedRight, HasPlace;
    FirstPlaced(d, s0, s1, s2, abs[(c, p)]);
    forall k | |s0.msgs| <= k < |s2.msgs| ensures CopyAt(d, abs, paths + [p], c, s2.msgs[k]) {
      if k < |s1.msgs| {
        assert s2.msgs[k] == s2.msgs[..|s1.msgs|][k] == s1.msgs[k];
        assert CopyAt(d, abs, paths, c, s1.msgs[k]);
      }
    }
    assert s2.msgs[..|s0.msgs|] == s2.msgs[..|s1.msgs|][..|s0.msgs|];
    if |s2.msgs| == |s0.msgs| { StillUnwanted(d, s0, s1, c); }
  }

  lemma FirstPlaced(d: Mail, s0: Context, s1: Context, s2: Context, clientQos: nat)
    ensures Untouched(s0, s1) && GotCopy(d, s1, s2, clientQos) ==> PlacedRight(s0, s2.msgs[|s0.msgs|], d.limits)
  {
  }

  lemma StillUnwanted(d: Mail, s0: Context, s1: Context, c: nat)
    requires Untouched(s0, s1)
    ensures forall qos: nat :: Wanted(d, s1, c, qos) <==> Wanted(d, s0, c, qos)
  {
  }

  lemma EachRight(d: Mail, abs: map<(nat, Path), nat>, had: seq<nat>, paths: seq<Path>, before: Context,
                  after: Context, c: nat)
    requires EachOnce(paths, abs, d.topic, c) && SomeRight(d, abs, paths, before, after, c) && d.limits.allowDuplicates
    ensures ServedRight(d, abs, had, before, after, c)
  {
    forall k | |before.msgs| <= k < |after.msgs| ensures RightCopy(d, abs, c, after.msgs[k]) {
      assert CopyAt(d, abs, paths, c, after.msgs[k]);
    }
    if p :| HasRoom(d, abs, before, c, p) {
      assert RightQos(MsgQos(abs[(c, p)], d.qos, d.limits), abs[(c, p)], d.qos, d.limits.upgradeQos);
    }
  }
}
