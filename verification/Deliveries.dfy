/** What becomes of each message in a queue over whole runs: it is neither lost nor sent out of turn. */
module Deliveries {
  import opened Session
  import opened Phases
  import opened Broker
  import opened Intake
  import opened Sessions
  import opened Runs

  // ----- the same entry at different moments -----

  /** Numbers for the entries of a queue, in their order: an entry keeps its number, and new ones get new numbers. */
  ghost function Renumbered(before: seq<Entry>, after: seq<Entry>, cause: Cause, ids: seq<nat>, next: nat)
      : (r: seq<nat>)
    requires |ids| == |before| && Follows(before, after, cause)
    ensures |r| == |after|
    decreases |before|
  {
    if before == [] then seq(|after|, k requires 0 <= k < |after| => next + k)
    else if after != [] && Onward(before[0], after[0], cause) && Follows(before[1..], after[1..], cause)
    then [ids[0]] + Renumbered(before[1..], after[1..], cause, ids[1..], next)
    else Renumbered(before[1..], after, cause, ids[1..], next)
  }

  predicate Ascending(ids: seq<nat>, next: nat) {
    && (forall i, j | 0 <= i < j < |ids| :: ids[i] < ids[j])
    && (forall i | 0 <= i < |ids| :: ids[i] < next)
  }

  /** Entry `j` of `after` is entry `i` of `before`. */
  predicate GoesOn(before: seq<Entry>, ids: seq<nat>, i: nat, after: seq<Entry>, r: seq<nat>, j: nat, cause: Cause) {
    i < |before| == |ids| && j < |after| == |r| && ids[i] == r[j] && Onward(before[i], after[j], cause)
  }

  lemma {:induction false} NumbersKept(before: seq<Entry>, after: seq<Entry>, cause: Cause, ids: seq<nat>, next: nat)
    requires |ids| == |before| && Follows(before, after, cause) && Ascending(ids, next)
    ensures var r := Renumbered(before, after, cause, ids, next);
            && Ascending(r, next + |after|) && (forall x | x in r :: x in ids || next <= x)
            && (forall j: nat | j < |after| ::
                  if r[j] < next then exists i: nat :: GoesOn(before, ids, i, after, r, j, cause)
                  else MayCome(after[j], cause))
            && (forall i: nat | i < |before| ::
                  MayGo(before[i], cause) || exists j: nat :: GoesOn(before, ids, i, after, r, j, cause))
    decreases |before|
  {
    hide Onward, MayGo, MayCome, Ascending, GoesOn;
    var r := Renumbered(before, after, cause, ids, next);
    if before == [] {
      NewAscend(next, |after|);
    } else {
      var rest := ids[1..];
      RestAscends(ids, next);
      if after != [] && Onward(before[0], after[0], cause) && Follows(before[1..], after[1..], cause) {
        NumbersKept(before[1..], after[1..], cause, rest, next);
        FirstKept(before, after, cause, ids, next, Renumbered(before[1..], after[1..], cause, rest, next));
      } else {
        NumbersKept(before[1..], after, cause, rest, next);
        FirstGone(before, after, cause, ids, next, r);
      }
    }
  }

  lemma NewAscend(next: nat, n: nat)
    ensures Ascending(seq(n, k requires 0 <= k < n => next + k), next + n)
  {
  }

  lemma RestAscends(ids: seq<nat>, next: nat)
    requires ids != [] && Ascending(ids, next)
    ensures Ascending(ids[1..], next)
  {
  }

  lemma FirstKept(before: seq<Entry>, after: seq<Entry>, cause: Cause, ids: seq<nat>, next: nat, r: seq<nat>)
    requires before != [] && after != [] && |ids| == |before| && Ascending(ids, next) && |r| == |after| - 1
    requires Onward(before[0], after[0], cause) && Ascending(r, next + |after| - 1)
    requires forall x | x in r :: x in ids[1..] || next <= x
    requires forall j: nat | j < |after| - 1 ::
               if r[j] < next then exists i: nat :: GoesOn(before[1..], ids[1..], i, after[1..], r, j, cause)
               else MayCome(after[1..][j], cause)
    requires forall i: nat | i < |before| - 1 ::
               MayGo(before[1..][i], cause)
               || exists j: nat :: GoesOn(before[1..], ids[1..], i, after[1..], r, j, cause)
    ensures var more := [ids[0]] + r;
            && Ascending(more, next + |after|) && (forall x | x in more :: x in ids || next <= x)
            && (forall j: nat | j < |after| ::
                  if more[j] < next then exists i: nat :: GoesOn(before, ids, i, after, more, j, cause)
                  else MayCome(after[j], cause))
            && (forall i: nat | i < |before| ::
                  MayGo(before[i], cause) || exists j: nat :: GoesOn(before, ids, i, after, more, j, cause))
  {
    hide Onward, MayGo, MayCome, Ascending;
    var more := [ids[0]] + r;
    MoreAscend(ids, next, r, |after|);
    assert GoesOn(before, ids, 0, after, more, 0, cause);
    forall j: nat | j < |after|
      ensures if more[j] < next then exists i: nat :: GoesOn(before, ids, i, after, more, j, cause)
              else MayCome(after[j], cause)
    {
      if j > 0 {
        assert more[j] == r[j - 1] && after[j] == after[1..][j - 1];
        if more[j] < next {
          var i: nat :| GoesOn(before[1..], ids[1..], i, after[1..], r, j - 1, cause);
          assert GoesOn(before, ids, i + 1, after, more, j, cause);
        }
      }
    }
    forall i: nat | i < |before|
      ensures MayGo(before[i], cause) || exists j: nat :: GoesOn(before, ids, i, after, more, j, cause)
    {
      if i > 0 && !MayGo(before[i], cause) {
        assert before[1..][i - 1] == before[i];
        var j: nat :| GoesOn(before[1..], ids[1..], i - 1, after[1..], r, j, cause);
        assert GoesOn(before, ids, i, after, more, j + 1, cause);
      }
    }
  }

  lemma MoreAscend(ids: seq<nat>, next: nat, r: seq<nat>, n: nat)
    requires ids != [] && Ascending(ids, next) && n > 0 && Ascending(r, next + n - 1)
    requires forall x | x in r :: x in ids[1..] || next <= x
    ensures Ascending([ids[0]] + r, next + n) && forall x | x in [ids[0]] + r :: x in ids || next <= x
    ensures ids[0] < next
  {
    assert forall j | 0 <= j < |r| :: r[j] in r;
    assert forall k | 0 < k < |ids| :: ids[k] == ids[1..][k - 1];
  }

  lemma FirstGone(before: seq<Entry>, after: seq<Entry>, cause: Cause, ids: seq<nat>, next: nat, r: seq<nat>)
    requires before != [] && |ids| == |before| && Ascending(ids, next) && |r| == |after| && MayGo(before[0], cause)
    requires forall x | x in r :: x in ids[1..] || next <= x
    requires forall j: nat | j < |after| ::
               if r[j] < next then exists i: nat :: GoesOn(before[1..], ids[1..], i, after, r, j, cause)
               else MayCome(after[j], cause)
    requires forall i: nat | i < |before| - 1 ::
               MayGo(before[1..][i], cause) || exists j: nat :: GoesOn(before[1..], ids[1..], i, after, r, j, cause)
    ensures forall x | x in r :: x in ids || next <= x
    ensures forall j: nat | j < |after| ::
              if r[j] < next then exists i: nat :: GoesOn(before, ids, i, after, r, j, cause)
              else MayCome(after[j], cause)
    ensures forall i: nat | i < |before| ::
              MayGo(before[i], cause) || exists j: nat :: GoesOn(before, ids, i, after, r, j, cause)
  {
    hide Onward, MayGo, MayCome;
    forall j: nat | j < |after| && r[j] < next ensures exists i: nat :: GoesOn(before, ids, i, after, r, j, cause) {
      var i: nat :| GoesOn(before[1..], ids[1..], i, after, r, j, cause);
      assert GoesOn(before, ids, i + 1, after, r, j, cause);
    }
    forall i: nat | i < |before|
      ensures MayGo(before[i], cause) || exists j: nat :: GoesOn(before, ids, i, after, r, j, cause)
    {
      if i > 0 && !MayGo(before[i], cause) {
        assert before[1..][i - 1] == before[i];
        var j: nat :| GoesOn(before[1..], ids[1..], i - 1, after, r, j, cause);
        assert GoesOn(before, ids, i, after, r, j, cause);
      }
    }
  }

  // ----- over a run -----

  /** The queue of client `c` at some moment. */
  function Queue(moments: seq<Moment>, c: nat, k: nat): seq<Entry> {
    if k < |moments| && c < |moments[k].contexts| then moments[k].contexts[c].msgs else []
  }

  /** What event `k` does to it. */
  function CauseAt(events: seq<(Event, int)>, moments: seq<Moment>, c: nat, k: nat): Cause {
    if k < |events| && k < |moments| && c < |moments[k].contexts| && Possible(events[k].0, |moments[k].contexts|)
    then CauseOf(events[k].0, events[k].1, moments[k].contexts[c].peer, c) else Nothing
  }

  lemma QueueGoesOn(events: seq<(Event, int)>, moments: seq<Moment>, c: nat, k: nat)
    requires History(events, moments) && k + 1 < |moments|
    ensures Follows(Queue(moments, c, k), Queue(moments, c, k + 1), CauseAt(events, moments, c, k))
  {
    hide Follows, CauseOf, WorldAfterAll, Possible, SendsFor, ConfirmsFirst;
    assert Turned(events, moments, k);
    if Possible(events[k].0, |moments[k].contexts|) {
      assert QueueFollows(events[k].0, events[k].1, moments[k].contexts, moments[k + 1].contexts, c);
      FollowsSame([], Nothing);
    } else {
      FollowsSame(Queue(moments, c, k), Nothing);
    }
  }

  datatype Numbers = Numbers(ids: seq<nat>, next: nat)

  /** The numbers of the entries at some moment. */
  ghost function NumbersAt(events: seq<(Event, int)>, moments: seq<Moment>, c: nat, k: nat): (r: Numbers)
    requires History(events, moments) && k < |moments|
    ensures |r.ids| == |Queue(moments, c, k)|
  {
    if k == 0 then Numbers([], 0)
    else
      QueueGoesOn(events, moments, c, k - 1);
      var before := NumbersAt(events, moments, c, k - 1);
      Numbers(Renumbered(Queue(moments, c, k - 1), Queue(moments, c, k), CauseAt(events, moments, c, k - 1),
                         before.ids, before.next),
              before.next + |Queue(moments, c, k)|)
  }

  /** `e` is the entry with number `x` in the queue of client `c` at moment `k`. */
  ghost predicate Is(events: seq<(Event, int)>, moments: seq<Moment>, c: nat, x: nat, k: nat, e: Entry) {
    History(events, moments) && k < |moments| && exists i: nat ::
      i < |Queue(moments, c, k)| && NumbersAt(events, moments, c, k).ids[i] == x && Queue(moments, c, k)[i] == e
  }

  ghost predicate Numbered(events: seq<(Event, int)>, moments: seq<Moment>, c: nat, x: nat, k: nat) {
    History(events, moments) && k < |moments| && x < NumbersAt(events, moments, c, k).next
  }

  lemma NumbersNext(events: seq<(Event, int)>, moments: seq<Moment>, c: nat, k: nat)
    requires History(events, moments) && k + 1 < |moments|
    ensures NumbersAt(events, moments, c, 0) == Numbers([], 0)
    ensures var before, after, n := Queue(moments, c, k), Queue(moments, c, k + 1), NumbersAt(events, moments, c, k);
            && Follows(before, after, CauseAt(events, moments, c, k))
            && NumbersAt(events, moments, c, k + 1) ==
               Numbers(Renumbered(before, after, CauseAt(events, moments, c, k), n.ids, n.next), n.next + |after|)
  {
    hide History, Follows, CauseAt, Renumbered;
    QueueGoesOn(events, moments, c, k);
  }

  lemma NoNumbers(events: seq<(Event, int)>, moments: seq<Moment>, c: nat)
    requires History(events, moments)
    ensures 0 < |moments| && NumbersAt(events, moments, c, 0) == Numbers([], 0) && Ascending([], 0)
  {
    hide Turned, WorldAfterAll;
  }

  lemma {:induction false} NumbersAscend(events: seq<(Event, int)>, moments: seq<Moment>, c: nat, k: nat)
    requires History(events, moments) && k < |moments|
    ensures Ascending(NumbersAt(events, moments, c, k).ids, NumbersAt(events, moments, c, k).next)
  {
    hide *;
    if k == 0 {
      NoNumbers(events, moments, c);
    } else {
      NumbersAscend(events, moments, c, k - 1);
      NumbersNext(events, moments, c, k - 1);
      var before := NumbersAt(events, moments, c, k - 1);
      NumbersKept(Queue(moments, c, k - 1), Queue(moments, c, k), CauseAt(events, moments, c, k - 1), before.ids,
                  before.next);
    }
  }

  lemma {:induction false} StaysNumbered(events: seq<(Event, int)>, moments: seq<Moment>, c: nat, x: nat, j: nat,
                                         k: nat)
    requires Numbered(events, moments, c, x, j) && j <= k < |moments|
    ensures Numbered(events, moments, c, x, k)
    decreases k
  {
    hide History, Renumbered, CauseAt;
    if j < k { StaysNumbered(events, moments, c, x, j, k - 1); }
  }

  lemma IsNumbered(events: seq<(Event, int)>, moments: seq<Moment>, c: nat, x: nat, k: nat, e: Entry)
    requires Is(events, moments, c, x, k, e)
    ensures Numbered(events, moments, c, x, k) && History(events, moments) && k < |moments| <= |events| + 1
  {
    assert |moments| <= |events| + 1;
    hide History, NumbersAt;
    NumbersAscend(events, moments, c, k);
  }

  /** Two entries of a queue have different numbers. */
  lemma SameEntry(events: seq<(Event, int)>, moments: seq<Moment>, c: nat, x: nat, k: nat, e: Entry, e': Entry)
    requires Is(events, moments, c, x, k, e) && Is(events, moments, c, x, k, e')
    ensures e == e'
  {
    hide History, NumbersAt;
    NumbersAscend(events, moments, c, k);
  }

  /** All that an event does to the numbers. */
  lemma NumbersGoOn(events: seq<(Event, int)>, moments: seq<Moment>, c: nat, k: nat)
    requires History(events, moments) && k + 1 < |moments|
    ensures var before, after, cause := Queue(moments, c, k), Queue(moments, c, k + 1), CauseAt(events, moments, c, k);
            var n, r := NumbersAt(events, moments, c, k), NumbersAt(events, moments, c, k + 1).ids;
            && (forall j: nat | j < |after| ::
                  if r[j] < n.next then exists i: nat :: GoesOn(before, n.ids, i, after, r, j, cause)
                  else MayCome(after[j], cause))
            && (forall i: nat | i < |before| ::
                  MayGo(before[i], cause) || exists j: nat :: GoesOn(before, n.ids, i, after, r, j, cause))
  {
    hide *;
    NumbersNext(events, moments, c, k);
    NumbersAscend(events, moments, c, k);
    var n := NumbersAt(events, moments, c, k);
    NumbersKept(Queue(moments, c, k), Queue(moments, c, k + 1), CauseAt(events, moments, c, k), n.ids, n.next);
  }

  /** An entry after an event that was there before has gone on from what it was. */
  lemma CameFrom(events: seq<(Event, int)>, moments: seq<Moment>, c: nat, x: nat, k: nat, e': Entry) returns (e: Entry)
    requires Is(events, moments, c, x, k + 1, e') && Numbered(events, moments, c, x, k)
    ensures Is(events, moments, c, x, k, e) && Onward(e, e', CauseAt(events, moments, c, k))
  {
    hide History, CauseAt, MayCome, MayGo, Onward, NumbersAt, Queue;
    NumbersGoOn(events, moments, c, k);
    var before, after, cause := Queue(moments, c, k), Queue(moments, c, k + 1), CauseAt(events, moments, c, k);
    var n, r := NumbersAt(events, moments, c, k), NumbersAt(events, moments, c, k + 1).ids;
    var j: nat :| j < |after| && r[j] == x && after[j] == e';
    var i: nat :| GoesOn(before, n.ids, i, after, r, j, cause);
    e := before[i];
  }

  /** An entry that has come with the event is a new one. */
  lemma HasCome(events: seq<(Event, int)>, moments: seq<Moment>, c: nat, x: nat, k: nat, e: Entry)
    requires Is(events, moments, c, x, k + 1, e) && !Numbered(events, moments, c, x, k)
    ensures MayCome(e, CauseAt(events, moments, c, k))
  {
    hide History, CauseAt, MayCome, MayGo, Onward, GoesOn, NumbersAt, Queue;
    NumbersGoOn(events, moments, c, k);
  }

  /** An entry that the event does not allow to go is there afterwards. */
  lemma GoesTo(events: seq<(Event, int)>, moments: seq<Moment>, c: nat, x: nat, k: nat, e: Entry) returns (e': Entry)
    requires Is(events, moments, c, x, k, e) && k + 1 < |moments| && !MayGo(e, CauseAt(events, moments, c, k))
    ensures Is(events, moments, c, x, k + 1, e') && Onward(e, e', CauseAt(events, moments, c, k))
  {
    hide History, CauseAt, MayCome, MayGo, Onward, NumbersAt, Queue;
    NumbersGoOn(events, moments, c, k);
    var before, after, cause := Queue(moments, c, k), Queue(moments, c, k + 1), CauseAt(events, moments, c, k);
    var n, r := NumbersAt(events, moments, c, k), NumbersAt(events, moments, c, k + 1).ids;
    var i: nat :| i < |before| && n.ids[i] == x && before[i] == e;
    var j: nat :| GoesOn(before, n.ids, i, after, r, j, cause);
    e' := after[j];
  }

  /** An entry that was there at an earlier moment was there just before. */
  lemma Earlier(events: seq<(Event, int)>, moments: seq<Moment>, c: nat, x: nat, j: nat, e: Entry, n: nat, e': Entry)
      returns (f: Entry)
    requires j < n && Is(events, moments, c, x, j, e) && Is(events, moments, c, x, n, e')
    ensures n <= |events| && Is(events, moments, c, x, n - 1, f) && Onward(f, e', CauseAt(events, moments, c, n - 1))
  {
    hide *;
    IsNumbered(events, moments, c, x, j, e);
    IsNumbered(events, moments, c, x, n, e');
    StaysNumbered(events, moments, c, x, j, n - 1);
    f := CameFrom(events, moments, c, x, n - 1, e');
  }

  // ----- a confirmed message is not published again -----

  predicate Reconnects(events: seq<(Event, int)>, k: nat, c: nat) {
    k < |events| && events[k].0.Connects? && events[k].0.c == c
  }

  lemma ConfirmedOn(e: Entry, e': Entry, cause: Cause)
    requires Onward(e, e', cause) && PhaseOf(e) == Confirmed && !cause.Resumed?
    ensures PhaseOf(e') == Confirmed
  {
  }

  lemma NotResumed(events: seq<(Event, int)>, moments: seq<Moment>, c: nat, k: nat)
    requires !Reconnects(events, k, c)
    ensures !CauseAt(events, moments, c, k).Resumed?
  {
  }

  /** What the client has confirmed with a PUBREC stays confirmed until it connects again. */
  lemma {:induction false} StaysConfirmed(events: seq<(Event, int)>, moments: seq<Moment>, c: nat, x: nat, j: nat,
                                          e: Entry, n: nat, e': Entry)
    requires j <= n && Is(events, moments, c, x, j, e) && Is(events, moments, c, x, n, e') && PhaseOf(e) == Confirmed
    requires forall k: nat | j <= k < n :: !Reconnects(events, k, c)
    ensures PhaseOf(e') == Confirmed
    decreases n
  {
    hide *;
    if j == n {
      SameEntry(events, moments, c, x, j, e, e');
    } else {
      var f := Earlier(events, moments, c, x, j, e, n, e');
      StaysConfirmed(events, moments, c, x, j, e, n - 1, f);
      NotResumed(events, moments, c, n - 1);
      ConfirmedOn(f, e', CauseAt(events, moments, c, n - 1));
    }
  }

  /** Every packet of a walk was called for by an entry. */
  lemma {:induction false} WroteFor(before: seq<Entry>, after: seq<Entry>, packets: seq<Packet>, done: bool, c: nat,
                                    p: Packet) returns (i: nat)
    requires Wrote(before, after, packets, done, c) && p in packets
    ensures i < |before| && CallsFor(before[i], p, c)
  {
    hide CallsFor, Sent, Left, SentAway;
    if after != [] && Left(before[0], after[0], done) && Wrote(before[1..], after[1..], packets, done, c) {
      i := WroteFor(before[1..], after[1..], packets, done, c, p);
      i := i + 1;
    } else if p == packets[0] {
      i := 0;
    } else if after != [] && Sent(before[0], after[0]) && Wrote(before[1..], after[1..], packets[1..], done, c) {
      i := WroteFor(before[1..], after[1..], packets[1..], done, c, p);
      i := i + 1;
    } else {
      i := WroteFor(before[1..], after, packets[1..], done, c, p);
      i := i + 1;
    }
  }

  /** What event `n` sends. */
  function SentAt(moments: seq<Moment>, n: nat): seq<Packet> {
    if n + 1 < |moments| && |moments[n].sent| <= |moments[n + 1].sent| then moments[n + 1].sent[|moments[n].sent|..]
    else []
  }

  /** All packets are sent by some event. */
  lemma Sends(events: seq<(Event, int)>, moments: seq<Moment>, n: nat)
    requires History(events, moments) && n + 1 < |moments|
    ensures moments[n + 1].sent == moments[n].sent + SentAt(moments, n)
    ensures forall p | p in SentAt(moments, n) && p.Publish? ::
              && Possible(events[n].0, |moments[n].contexts|)
              && SendsFor(events[n].0, moments[n].contexts, moments[n + 1].contexts, SentAt(moments, n))
  {
    assert Turned(events, moments, n);
    if !Possible(events[n].0, |moments[n].contexts|) { assert SentAt(moments, n) == []; }
  }

  /** A PUBLISH is sent for an entry that calls for it. */
  lemma PublishFor(events: seq<(Event, int)>, moments: seq<Moment>, n: nat, p: Packet) returns (x: nat, e: Entry)
    requires History(events, moments) && p in SentAt(moments, n) && p.Publish?
    ensures Is(events, moments, p.client, x, n, e) && CallsFor(e, p, p.client)
  {
    assert |moments| <= |events| + 1;
    hide History, Wrote, NumbersAt;
    Sends(events, moments, n);
    var c := events[n].0.c;
    var done :| Wrote(moments[n].contexts[c].msgs, moments[n + 1].contexts[c].msgs, SentAt(moments, n), done, c);
    var i := WroteFor(moments[n].contexts[c].msgs, moments[n + 1].contexts[c].msgs, SentAt(moments, n), done, c, p);
    x, e := NumbersAt(events, moments, c, n).ids[i], Queue(moments, c, n)[i];
  }

  lemma ComesFirst(msgs: seq<Entry>, cause: Cause)
    requires AllCome(msgs, cause) && msgs != []
    ensures cause.Nothing? || cause.Released?
  {
    assert MayCome(msgs[0], cause);
  }

  /** A PUBREC leaves all entries at their places. */
  lemma {:induction false} SamePlaces(before: seq<Entry>, after: seq<Entry>, cause: Cause, ids: seq<nat>, next: nat)
    requires |ids| == |before| && Follows(before, after, cause) && cause.Confirming?
    ensures |after| == |before| && Renumbered(before, after, cause, ids, next) == ids
  {
    hide Onward;
    if before == [] {
      if after != [] { ComesFirst(after, cause); }
    } else {
      SamePlaces(before[1..], after[1..], cause, ids[1..], next);
    }
  }

  /** Event `j` is a PUBREC, and the entry with number `x` the first outgoing one under its packet id. */
  ghost predicate Confirms(events: seq<(Event, int)>, moments: seq<Moment>, c: nat, x: nat, j: nat) {
    && History(events, moments) && j + 1 < |moments| && events[j].0.Receives? && events[j].0.c == c
    && c < |moments[j].contexts| && exists i: nat ::
         FirstOut(Queue(moments, c, j), i, events[j].0.mid) && NumbersAt(events, moments, c, j).ids[i] == x
  }

  lemma IsConfirmed(events: seq<(Event, int)>, moments: seq<Moment>, c: nat, x: nat, j: nat) returns (e: Entry)
    requires Confirms(events, moments, c, x, j)
    ensures Is(events, moments, c, x, j + 1, e) && PhaseOf(e) == Confirmed
  {
    hide *;
    var i := PubrecAt(events, moments, c, x, j);
    NumbersNext(events, moments, c, j);
    var n := NumbersAt(events, moments, c, j);
    SamePlaces(Queue(moments, c, j), Queue(moments, c, j + 1), CauseAt(events, moments, c, j), n.ids, n.next);
    e := AtPlace(events, moments, c, x, j + 1, i);
  }

  lemma PubrecAt(events: seq<(Event, int)>, moments: seq<Moment>, c: nat, x: nat, j: nat) returns (i: nat)
    requires Confirms(events, moments, c, x, j)
    ensures History(events, moments) && j + 1 < |moments| && i < |Queue(moments, c, j)|
            && i < |Queue(moments, c, j + 1)| && NumbersAt(events, moments, c, j).ids[i] == x
    ensures PhaseOf(Queue(moments, c, j + 1)[i]) == Confirmed && CauseAt(events, moments, c, j).Confirming?
  {
    assert Turned(events, moments, j);
    hide NumbersAt, Follows, SendsFor, PhaseOf, WorldAfterAll;
    i :| FirstOut(Queue(moments, c, j), i, events[j].0.mid) && NumbersAt(events, moments, c, j).ids[i] == x;
  }

  lemma AtPlace(events: seq<(Event, int)>, moments: seq<Moment>, c: nat, x: nat, k: nat, i: nat) returns (e: Entry)
    requires History(events, moments) && k < |moments| && i < |Queue(moments, c, k)|
             && NumbersAt(events, moments, c, k).ids[i] == x
    ensures Is(events, moments, c, x, k, e) && e == Queue(moments, c, k)[i]
  {
    hide History, NumbersAt, Queue;
    e := Queue(moments, c, k)[i];
  }

  /**
    A message whose PUBREC was handled is not published again, whatever happens, until its client connects again: every
    PUBLISH to the client is sent for another entry of its queue.
  */
  lemma NoPublishAfterPubrec(events: seq<(Event, int)>, moments: seq<Moment>, c: nat, x: nat, j: nat, n: nat, p: Packet)
      returns (y: nat, e: Entry)
    requires Confirms(events, moments, c, x, j) && j < n && p in SentAt(moments, n) && p.Publish? && p.client == c
    requires forall k: nat | j < k < n :: !Reconnects(events, k, c)
    ensures y != x && Is(events, moments, c, y, n, e) && CallsFor(e, p, c)
  {
    hide *;
    var f := IsConfirmed(events, moments, c, x, j);
    IsNumbered(events, moments, c, x, j + 1, f);
    y, e := PublishFor(events, moments, n, p);
    if y == x {
      StaysConfirmed(events, moments, c, x, j + 1, f, n, e);
      CallsForPubrel(e, p, c);
    }
  }

  lemma CallsForPubrel(e: Entry, p: Packet, c: nat)
    requires CallsFor(e, p, c) && PhaseOf(e) == Confirmed
    ensures p.Pubrel?
  {
  }

  // ----- no message is lost -----

  /** What takes a message out of a persistent session: its acknowledgement, its release, or a clean CONNECT. */
  predicate TakesAway(events: seq<(Event, int)>, j: nat, c: nat, k: Key) {
    j < |events|
    && match events[j].0
       case Connects(d, clean, _) => d == c && clean
       case Acknowledges(d, mid) => d == c && k.dir == Out && mid == k.mid
       case Releases(d, mid, _, _) => d == c && k.dir == In && mid == k.mid
       case _ => false
  }

  predicate PersistentAt(moments: seq<Moment>, c: nat, k: nat) {
    k < |moments| && c < |moments[k].contexts| && moments[k].contexts[c].peer.named
        && !moments[k].contexts[c].peer.clean
  }

  lemma StaysPersistent(events: seq<(Event, int)>, moments: seq<Moment>, c: nat, k: nat, key: Key)
    requires History(events, moments) && k + 1 < |moments| && PersistentAt(moments, c, k)
             && !TakesAway(events, k, c, key)
    ensures PersistentAt(moments, c, k + 1)
  {
    hide WillOk, WithFilters, WithoutFilters, Without, Turned;
    assert events[..k + 1][..k] == events[..k];
    var peers, peers' := Peers(moments[k].contexts), Peers(moments[k + 1].contexts);
    assert peers == WorldAfterAll(events[..k]).peers && peers' == WorldAfterAll(events[..k + 1]).peers;
    assert peers[c] == moments[k].contexts[c].peer;
    assert c < |peers'| && peers'[c] == moments[k + 1].contexts[c].peer;
  }

  /**
    A message with QoS 1 or 2 in the queue of a persistent session stays there, whether the client is connected or not,
    until the client acknowledges it, or releases it, or asks for a clean session.
  */
  lemma {:induction false} StaysQueued(events: seq<(Event, int)>, moments: seq<Moment>, c: nat, x: nat, j: nat,
                                       e: Entry, n: nat) returns (e': Entry)
    requires j <= n < |moments| && Is(events, moments, c, x, j, e) && PersistentAt(moments, c, j) && e.key.qos > 0
    requires forall k: nat | j <= k < n :: !TakesAway(events, k, c, e.key)
    ensures Is(events, moments, c, x, n, e') && e'.key == e.key && PersistentAt(moments, c, n)
    decreases n
  {
    hide *;
    if j == n {
      e' := e;
    } else {
      var f := StaysQueued(events, moments, c, x, j, e, n - 1);
      IsNumbered(events, moments, c, x, j, e);
      StaysPersistent(events, moments, c, n - 1, e.key);
      CannotGo(events, moments, c, n - 1, f);
      e' := GoesTo(events, moments, c, x, n - 1, f);
      SameKey(f, e', CauseAt(events, moments, c, n - 1));
    }
  }

  lemma CannotGo(events: seq<(Event, int)>, moments: seq<Moment>, c: nat, k: nat, e: Entry)
    requires PersistentAt(moments, c, k) && e.key.qos > 0 && !TakesAway(events, k, c, e.key)
    ensures !MayGo(e, CauseAt(events, moments, c, k))
  {
  }

  lemma SameKey(e: Entry, e': Entry, cause: Cause)
    requires Onward(e, e', cause)
    ensures e'.key == e.key
  {
  }

  // ----- repeated packets are marked -----

  /** An entry that waits for an acknowledgement of its PUBLISH is marked. */
  predicate Marked(e: Entry) {
    Awaits(e) && (PhaseOf(e) == Going || PhaseOf(e) == Returned) ==> e.dup
  }

  lemma MarkedOn(e: Entry, e': Entry, cause: Cause)
    requires Onward(e, e', cause)
    ensures (e.dup ==> e'.dup) && (Marked(e) ==> Marked(e'))
  {
  }

  lemma ComesMarked(e: Entry, cause: Cause)
    requires MayCome(e, cause)
    ensures Marked(e)
  {
  }

  lemma {:induction false} AllMarked(events: seq<(Event, int)>, moments: seq<Moment>, c: nat, x: nat, k: nat, e: Entry)
    requires Is(events, moments, c, x, k, e)
    ensures Marked(e)
    decreases k
  {
    hide *;
    NotAtFirst(events, moments, c, x, k, e);
    if Numbered(events, moments, c, x, k - 1) {
      var f := CameFrom(events, moments, c, x, k - 1, e);
      AllMarked(events, moments, c, x, k - 1, f);
      MarkedOn(f, e, CauseAt(events, moments, c, k - 1));
    } else {
      HasCome(events, moments, c, x, k - 1, e);
      ComesMarked(e, CauseAt(events, moments, c, k - 1));
    }
  }

  lemma NotAtFirst(events: seq<(Event, int)>, moments: seq<Moment>, c: nat, x: nat, k: nat, e: Entry)
    requires Is(events, moments, c, x, k, e)
    ensures k > 0
  {
  }

  lemma {:induction false} DupStays(events: seq<(Event, int)>, moments: seq<Moment>, c: nat, x: nat, j: nat, e: Entry,
                                    n: nat, e': Entry)
    requires j <= n && Is(events, moments, c, x, j, e) && Is(events, moments, c, x, n, e') && e.dup
    ensures e'.dup
    decreases n
  {
    hide *;
    if j == n {
      SameEntry(events, moments, c, x, j, e, e');
    } else {
      var f := Earlier(events, moments, c, x, j, e, n, e');
      DupStays(events, moments, c, x, j, e, n - 1, f);
      MarkedOn(f, e', CauseAt(events, moments, c, n - 1));
    }
  }

  /**
    Once a message was published and waits for its acknowledgement, every later PUBLISH of it is marked as repeated.
  */
  lemma RepeatedIsMarked(events: seq<(Event, int)>, moments: seq<Moment>, c: nat, x: nat, j: nat, e: Entry, n: nat,
                         e': Entry, p: Packet)
    requires j <= n && Is(events, moments, c, x, j, e) && Is(events, moments, c, x, n, e')
    requires PhaseOf(e) == Going && Awaits(e) && CallsFor(e', p, c) && p.Publish?
    ensures p.dup
  {
    hide Is;
    AllMarked(events, moments, c, x, j, e);
    DupStays(events, moments, c, x, j, e, n, e');
  }

  /**
    An incoming message that an acknowledgement of another one starts waits for its PUBREL, though its client has not
    been sent a PUBREC: no walk sends it until the message has waited too long.
  */
  lemma UnansweredUntilTimeout(e: Entry, c: nat, limits: Limits, now: int, threshold: int, later: int)
    requires e.state == Queued && e.key.dir == In && e.key.qos == 2
    ensures WriteOut([Started(e, now)], 0, 0, 9, c, limits, later).packets == []
    ensures now < threshold ==>
              WriteOut([TimedOut(Started(e, now), threshold, later)], 0, 0, 9, c, limits, later).packets ==
              [Pubrec(c, e.key.mid)]
  {
    var s, t := Started(e, now), TimedOut(Started(e, now), threshold, later);
    assert WriteOut([s], 1, 1, 9, c, limits, later) == Written([s], [], true);
    if now < threshold {
      var sent := [t][0 := AfterSending(t, later)];
      assert WriteOut(sent, 1, 1, 8, c, limits, later) == Written(sent, [], true);
    }
  }

  // ----- what has waited too long is repeated -----

  /** A walk to the end sends the packet of an entry that is due; the entry then awaits the answer. */
  lemma {:induction false} DueIsSent(before: seq<Entry>, after: seq<Entry>, packets: seq<Packet>, c: nat, i: nat)
      returns (p: Packet, j: nat)
    requires Wrote(before, after, packets, true, c) && i < |before| && Due(before[i]) && !SentAway(before[i])
             && before[i].state != Queued
    ensures p in packets && CallsFor(before[i], p, c) && j < |after| && Sent(before[i], after[j])
  {
    hide CallsFor, Sent, SentAway, Due;
    if after != [] && Left(before[0], after[0], true) && Wrote(before[1..], after[1..], packets, true, c) {
      p, j := DueIsSent(before[1..], after[1..], packets, c, i - 1);
      j := j + 1;
    } else if after != [] && packets != [] && CallsFor(before[0], packets[0], c) && Sent(before[0], after[0])
              && Wrote(before[1..], after[1..], packets[1..], true, c) {
      if i == 0 {
        p, j := packets[0], 0;
      } else {
        p, j := DueIsSent(before[1..], after[1..], packets[1..], c, i - 1);
        j := j + 1;
      }
    } else {
      p, j := DueIsSent(before[1..], after, packets[1..], c, i - 1);
    }
  }

  /**
    A timeout, and then a walk to the end. Each entry that has waited too long sends the packet of its phase again,
    marked as repeated, and waits for the same answer as before.
  */
  lemma RepeatedOnce(before: seq<Entry>, mid: seq<Entry>, after: seq<Entry>, packets: seq<Packet>, c: nat,
                     threshold: int, now: int, i: nat) returns (p: Packet, j: nat)
    requires StatesFit(before) && StatesFit(after) && |mid| == |before| && i < |before|
    requires forall k | 0 <= k < |before| :: Onward(before[k], mid[k], Overdue(threshold, now))
    requires Wrote(mid, after, packets, true, c) && Awaits(before[i]) && before[i].timestamp < threshold
    ensures p in packets && CallsFor(before[i].(dup := true), p, c)
    ensures j < |after| && after[j].key == before[i].key && after[j].state == before[i].state && after[j].dup
  {
    assert Onward(before[i], mid[i], Overdue(threshold, now)) && StateFits(before[i]);
    hide Wrote, StatesFit;
    StaysOn(before[i], mid[i]);
    p, j := DueIsSent(mid, after, packets, c, i);
    assert StateFits(after[j]) by { EachFits(after, j); }
    StateFromPhase(before[i], after[j]);
  }

  lemma EachFits(msgs: seq<Entry>, j: nat)
    requires StatesFit(msgs) && j < |msgs|
    ensures StateFits(msgs[j])
  {
  }

  lemma StaysOn(e: Entry, e': Entry)
    requires StateFits(e) && Awaits(e) && e'.key == e.key && PhaseOf(e') == PhaseOf(e) && Due(e')
    ensures !SentAway(e') && e'.state != Queued
  {
  }

  /** And a message whose PUBREC was handled is not among those that are published. */
  lemma NoneRepublished(before: seq<Entry>, mid: seq<Entry>, after: seq<Entry>, packets: seq<Packet>, done: bool,
                        c: nat, threshold: int, now: int, p: Packet) returns (i: nat)
    requires |mid| == |before| && forall k | 0 <= k < |before| :: Onward(before[k], mid[k], Overdue(threshold, now))
    requires Wrote(mid, after, packets, done, c) && p in packets && p.Publish?
    ensures i < |before| && PhaseOf(before[i]) != Confirmed
            && p.message == before[i].key.store && p.mid == before[i].key.mid
  {
    hide Wrote;
    i := WroteFor(mid, after, packets, done, c, p);
    assert Onward(before[i], mid[i], Overdue(threshold, now));
  }
}
