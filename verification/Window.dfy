/** The out-queue of the client library as a value: which messages are in flight, and what has been sent for them. */
module Window {
  import opened Sequences

  datatype State = Invalid | WaitForPuback | WaitForPubrec | WaitForPubcomp | WaitForPubrel

  /** A queued message; `serial` numbers the messages in the order in which they were published. */
  datatype Item = Item(serial: nat, mid: nat, qos: nat, state: State)

  /** What happens to a message: an attempt to send its PUBLISH, or a PUBREC for it. */
  datatype Event = Publish(serial: nat, mid: nat, qos: nat) | Pubrec(serial: nat, qos: nat)

  function Least(a: nat, b: nat): nat {
    if a <= b then a else b
  }

  /** How many of `n` messages may be in flight; 0 stands for no limit. */
  function Places(n: nat, max: nat): nat {
    if max == 0 then n else Least(n, max)
  }

  /** The messages in flight are the first of the queue, as many as there are places, and they are counted right. */
  predicate InWindow(items: seq<Item>, max: nat, inflight: int) {
    inflight == Places(|items|, max) && forall i | 0 <= i < |items| :: items[i].state != Invalid <==> i < inflight
  }

  predicate Tried(trace: seq<Event>, serial: nat) {
    exists i :: 0 <= i < |trace| && trace[i].Publish? && trace[i].serial == serial
  }

  /** The messages in the order in which their PUBLISH was first sent. */
  function Firsts(trace: seq<Event>): seq<nat> {
    if trace == [] then []
    else
      var before, e := trace[..|trace| - 1], trace[|trace| - 1];
      if e.Publish? && !Tried(before, e.serial) then Firsts(before) + [e.serial] else Firsts(before)
  }

  function UpTo(n: nat): seq<nat> {
    seq(n, i => i)
  }

  /** Once a PUBREC has come for a QoS 2 message, its PUBLISH is not sent again. */
  predicate NeverRegresses(trace: seq<Event>) {
    forall i, j | 0 <= i < j < |trace| && trace[i].Pubrec? && trace[i].qos == 2 && trace[j].Publish? ::
          trace[j].serial != trace[i].serial
  }

  predicate Confirmed(trace: seq<Event>, serial: nat) {
    exists i :: 0 <= i < |trace| && trace[i] == Pubrec(serial, 2)
  }

  /** What has been sent of `next` published messages: all but those at the end of the queue that wait for a place. */
  function Started(items: seq<Item>, inflight: int, next: nat): int {
    next - (|items| - inflight)
  }

  /** How the queue and the trace fit together. */
  predicate Fits(items: seq<Item>, inflight: int, next: nat, trace: seq<Event>) {
    var started := Started(items, inflight, next);
    && 0 <= inflight <= |items| && 0 <= started
    && (forall i | inflight <= i < |items| :: items[i].serial == started + (i - inflight))
    && (forall i | 0 <= i < inflight :: items[i].serial < started)
    && (forall i, j | 0 <= i < j < |items| :: items[i].serial < items[j].serial)
    && Firsts(trace) == UpTo(started) && NeverRegresses(trace)
    && (forall i | 0 <= i < |trace| :: trace[i].serial < started)
    && (forall i | 0 <= i < |items| && Confirmed(trace, items[i].serial) ::
          items[i].qos == 2 && items[i].state == WaitForPubcomp)
    && (forall i | 0 <= i < |items| && items[i].qos == 2 && items[i].state == WaitForPubcomp ::
          Confirmed(trace, items[i].serial))
    && forall i | 0 <= i < |items| :: StateFits(items[i])
  }

  /** The states that a message can be in by its QoS; a PUBREC is taken for one with QoS 1 as well. */
  predicate StateFits(item: Item) {
    && 1 <= item.qos <= 2
    && match item.state
       case Invalid => true
       case WaitForPuback => item.qos == 1
       case WaitForPubrec => item.qos == 2
       case WaitForPubcomp => true
       case WaitForPubrel => false
  }

  predicate Sound(items: seq<Item>, max: nat, inflight: int, next: nat, trace: seq<Event>) {
    InWindow(items, max, inflight) && Fits(items, inflight, next, trace)
  }

  // ----- one more event -----

  lemma TriedMore(trace: seq<Event>, e: Event, serial: nat)
    ensures Tried(trace + [e], serial) <==> Tried(trace, serial) || (e.Publish? && e.serial == serial)
    ensures Confirmed(trace + [e], serial) <==> Confirmed(trace, serial) || e == Pubrec(serial, 2)
  {
    var more := trace + [e];
    assert more[|trace|] == e;
    if Tried(trace, serial) {
      var i :| 0 <= i < |trace| && trace[i].Publish? && trace[i].serial == serial;
      assert more[i] == trace[i];
    }
    if Confirmed(trace, serial) {
      var i :| 0 <= i < |trace| && trace[i] == Pubrec(serial, 2);
      assert more[i] == trace[i];
    }
  }

  lemma FirstsMore(trace: seq<Event>, e: Event)
    ensures Firsts(trace + [e]) == if e.Publish? && !Tried(trace, e.serial) then Firsts(trace) + [e.serial]
            else Firsts(trace)
  {
    assert (trace + [e])[..|trace|] == trace;
  }

  /** A serial number was tried just when it is among the first attempts. */
  lemma {:induction false} TriedIsFirst(trace: seq<Event>, serial: nat)
    ensures Tried(trace, serial) <==> serial in Firsts(trace)
  {
    if trace != [] {
      var n := |trace| - 1;
      TriedIsFirst(trace[..n], serial);
      assert trace == trace[..n] + [trace[n]];
      TriedMore(trace[..n], trace[n], serial);
      FirstsMore(trace[..n], trace[n]);
    }
  }

  lemma RegressesNot(trace: seq<Event>, e: Event)
    requires NeverRegresses(trace) && (e.Publish? ==> !Confirmed(trace, e.serial))
    ensures NeverRegresses(trace + [e])
  {
    var more := trace + [e];
    forall i, j | 0 <= i < j < |more| && more[i].Pubrec? && more[i].qos == 2 && more[j].Publish?
        ensures more[j].serial != more[i].serial {
      if j == |trace| {
        assert trace[i] != Pubrec(e.serial, 2);
      }
    }
  }

  // ----- what the library does to the queue -----

  /** A message is published: it is tried at once if there is a place, or waits. */
  lemma SoundPublish(items: seq<Item>, max: nat, inflight: int, next: nat, trace: seq<Event>, item: Item)
    requires Sound(items, max, inflight, next, trace) && item.serial == next
    requires var placed := max == 0 || inflight < max;
             (item.state != Invalid <==> placed) && item.state != WaitForPubcomp && StateFits(item)
    ensures var placed := max == 0 || inflight < max;
            Sound(items + [item], max, if placed then inflight + 1 else inflight, next + 1,
                  if placed then trace + [Publish(next, item.mid, item.qos)] else trace)
  {
    hide Fits;
    FitsPublish(items, inflight, next, trace, item, item.state != Invalid);
  }

  lemma FitsPublish(items: seq<Item>, inflight: int, next: nat, trace: seq<Event>, item: Item, placed: bool)
    requires Fits(items, inflight, next, trace) && item.serial == next
             && item.state != WaitForPubcomp && StateFits(item)
    requires placed ==> inflight == |items|
    ensures Fits(items + [item], if placed then inflight + 1 else inflight, next + 1, if placed then trace
                 + [Publish(next, item.mid, item.qos)] else trace)
  {
    hide Firsts, UpTo, NeverRegresses, Confirmed, Tried;
    NotConfirmed(trace, next, next);
    if placed {
      var e := Publish(next, item.mid, item.qos);
      TryNext(trace, next, item.mid, item.qos);
      forall i | 0 <= i < |items| + 1
          ensures Confirmed(trace + [e], (items + [item])[i].serial) == Confirmed(trace, (items + [item])[i].serial) {
        TriedMore(trace, e, (items + [item])[i].serial);
      }
    }
  }

  lemma NotConfirmed(trace: seq<Event>, bound: int, serial: nat)
    requires (forall i | 0 <= i < |trace| :: trace[i].serial < bound) && bound <= serial
    ensures !Confirmed(trace, serial) && !Tried(trace, serial)
  {
  }

  /** The message that comes next is tried for the first time. */
  lemma TryNext(trace: seq<Event>, started: nat, mid: nat, qos: nat)
    requires Firsts(trace) == UpTo(started) && NeverRegresses(trace) && forall i | 0 <= i < |trace| ::
               trace[i].serial < started
    ensures var more := trace + [Publish(started, mid, qos)];
            Firsts(more) == UpTo(started + 1) && NeverRegresses(more) && forall i | 0 <= i < |more| ::
                  more[i].serial < started + 1
  {
    hide Firsts, Tried, NeverRegresses, UpTo, Confirmed;
    NotConfirmed(trace, started, started);
    FirstsMore(trace, Publish(started, mid, qos));
    RegressesNot(trace, Publish(started, mid, qos));
    UpToNext(started);
  }

  lemma UpToNext(n: nat)
    ensures UpTo(n + 1) == UpTo(n) + [n]
  {
  }

  /** The state in which a message is in flight for the first time. */
  function Flying(qos: nat): State {
    if qos == 1 then WaitForPuback else WaitForPubrec
  }

  /** Where the first message that waits is, once message `i` has been taken out. */
  function Waiting(inflight: int, i: nat): int {
    if i < inflight then inflight - 1 else inflight
  }

  /** The queue after message `i` has been acknowledged: the first one that waits, if any, takes the place. */
  function Acknowledged(items: seq<Item>, inflight: nat, i: nat): (r: seq<Item>)
    requires i < |items| && inflight <= |items|
  {
    var rest, p := Removed(items, i), Waiting(inflight, i);
    if p < |rest| then rest[p := rest[p].(state := Flying(rest[p].qos))] else rest
  }

  function StillInFlight(items: seq<Item>, inflight: int, i: nat): int {
    if Waiting(inflight, i) < |items| - 1 then inflight else inflight - 1
  }

  function WhatIsTried(items: seq<Item>, inflight: int): seq<Event> {
    if 0 <= inflight < |items| then [Publish(items[inflight].serial, items[inflight].mid, items[inflight].qos)] else []
  }

  /** An acknowledgement keeps the window just when it is for a message that had been sent. */
  lemma WindowAcknowledged(items: seq<Item>, max: nat, inflight: int, i: nat)
    requires InWindow(items, max, inflight) && i < |items|
    ensures InWindow(Acknowledged(items, inflight, i), max, StillInFlight(items, inflight, i)) <==> i < inflight
    ensures i < inflight <==> items[i].state != Invalid
    ensures inflight < |items| ==> items[inflight].state == Invalid
  {
    var rest, r := Removed(items, i), Acknowledged(items, inflight, i);
    assert forall k | 0 <= k < |rest| :: rest[k] == items[if k < i then k else k + 1];
    if i >= inflight {
      assert r[StillInFlight(items, inflight, i)].state != Invalid;
    }
  }

  /** So does a PUBREC. */
  lemma WindowReceived(items: seq<Item>, max: nat, inflight: int, i: nat)
    requires InWindow(items, max, inflight) && i < |items|
    ensures InWindow(items[i := items[i].(state := WaitForPubcomp)], max, inflight) <==> i < inflight
  {
    assert items[i := items[i].(state := WaitForPubcomp)][i].state == WaitForPubcomp;
  }

  lemma FitsRemoved(items: seq<Item>, inflight: int, next: nat, trace: seq<Event>, i: nat)
    requires Fits(items, inflight, next, trace) && i < inflight
    ensures Fits(Removed(items, i), inflight - 1, next, trace)
  {
    hide NeverRegresses, Firsts, Tried, UpTo, Confirmed;
    var rest := Removed(items, i);
    assert forall k | 0 <= k < |rest| :: rest[k] == items[if k < i then k else k + 1];
  }

  lemma FitsStarted(items: seq<Item>, inflight: int, next: nat, trace: seq<Event>)
    requires Fits(items, inflight, next, trace) && inflight < |items|
    ensures Fits(items[inflight := items[inflight].(state := Flying(items[inflight].qos))], inflight + 1, next,
                 trace + [Publish(items[inflight].serial, items[inflight].mid, items[inflight].qos)])
  {
    var started := Started(items, inflight, next);
    var e := Publish(items[inflight].serial, items[inflight].mid, items[inflight].qos);
    TryNext(trace, started, items[inflight].mid, items[inflight].qos);
    NotConfirmed(trace, started, started);
    forall k | 0 <= k < |items| ensures Confirmed(trace + [e], items[k].serial) == Confirmed(trace, items[k].serial) {
      TriedMore(trace, e, items[k].serial);
    }
    hide NeverRegresses, Firsts, Tried, UpTo, Confirmed;
  }

  lemma WindowLength(items: seq<Item>, max: nat, inflight: int)
    requires InWindow(items, max, inflight)
    ensures 0 <= inflight <= |items|
  {
  }

  lemma SoundAcknowledged(items: seq<Item>, max: nat, inflight: int, next: nat, trace: seq<Event>, i: nat)
    requires Sound(items, max, inflight, next, trace) && i < inflight
    ensures Sound(Acknowledged(items, inflight, i), max, StillInFlight(items, inflight, i), next, trace
                  + WhatIsTried(items, inflight))
  {
    hide InWindow, Fits;
    WindowLength(items, max, inflight);
    WindowAcknowledged(items, max, inflight, i);
    FitsRemoved(items, inflight, next, trace, i);
    if inflight < |items| {
      assert Removed(items, i)[inflight - 1] == items[inflight];
      FitsStarted(Removed(items, i), inflight - 1, next, trace);
    }
    assert trace + [] == trace;
  }

  /** A PUBREC for a message in flight. */
  lemma SoundReceived(items: seq<Item>, max: nat, inflight: int, next: nat, trace: seq<Event>, i: nat)
    requires Sound(items, max, inflight, next, trace) && i < inflight
    ensures Sound(items[i := items[i].(state := WaitForPubcomp)], max, inflight, next, trace
                  + [Pubrec(items[i].serial, items[i].qos)])
  {
    WindowLength(items, max, inflight);
    WindowReceived(items, max, inflight, i);
    FitsReceived(items, inflight, next, trace, i);
  }

  lemma FitsReceived(items: seq<Item>, inflight: int, next: nat, trace: seq<Event>, i: nat)
    requires Fits(items, inflight, next, trace) && i < inflight
    ensures Fits(items[i := items[i].(state := WaitForPubcomp)], inflight, next,
                 trace + [Pubrec(items[i].serial, items[i].qos)])
  {
    var e := Pubrec(items[i].serial, items[i].qos);
    FirstsMore(trace, e);
    RegressesNot(trace, e);
    hide Firsts, NeverRegresses, UpTo, Tried, Confirmed;
    forall k | 0 <= k < |items|
        ensures Confirmed(trace + [e], items[k].serial) <==>
          Confirmed(trace, items[k].serial) || (k == i && items[i].qos == 2) {
      TriedMore(trace, e, items[k].serial);
    }
  }

  /** A message in flight whose PUBLISH is due again. */
  lemma SoundRetried(items: seq<Item>, max: nat, inflight: int, next: nat, trace: seq<Event>, i: nat)
    requires Sound(items, max, inflight, next, trace) && i < |items|
    requires items[i].state == WaitForPuback || items[i].state == WaitForPubrec
    ensures Sound(items, max, inflight, next, trace + [Publish(items[i].serial, items[i].mid, items[i].qos)])
  {
    var e := Publish(items[i].serial, items[i].mid, items[i].qos);
    assert UpTo(Started(items, inflight, next))[items[i].serial] == items[i].serial;
    TriedIsFirst(trace, items[i].serial);
    FirstsMore(trace, e);
    RegressesNot(trace, e);
    forall k | 0 <= k < |items| ensures Confirmed(trace + [e], items[k].serial) <==> Confirmed(trace, items[k].serial) {
      TriedMore(trace, e, items[k].serial);
    }
  }

  /** What a reconnect does to a message at position `i`. */
  function ResetItem(item: Item, i: nat, max: nat): Item {
    if max == 0 || i < max then if item.qos == 1 then item.(state := WaitForPuback) else item
        else item.(state := Invalid)
  }

  lemma SoundReset(items: seq<Item>, max: nat, inflight: int, next: nat, trace: seq<Event>, r: seq<Item>)
    requires Sound(items, max, inflight, next, trace)
    requires |r| == |items| && forall i | 0 <= i < |items| :: r[i] == ResetItem(items[i], i, max)
    ensures Sound(r, max, inflight, next, trace)
  {
  }

  // ----- whole runs -----

  datatype Queue = Queue(items: seq<Item>, inflight: int, next: nat, trace: seq<Event>)

  /** What can happen to the out-queue; messages are named by their position. */
  datatype Step = Publishes(mid: nat, qos: nat) | Acknowledges(i: nat) | Confirms(i: nat) | Retries(i: nat) | Reconnects

  /** Only messages that were sent are acknowledged, and only those that wait for an answer are retried. */
  predicate Possible(q: Queue, step: Step) {
    match step
    case Publishes(_, qos) => 1 <= qos <= 2
    case Acknowledges(i) => i < q.inflight && i < |q.items|
    case Confirms(i) => i < q.inflight && i < |q.items|
    case Retries(i) => i < |q.items| && (q.items[i].state == WaitForPuback || q.items[i].state == WaitForPubrec)
    case Reconnects => true
  }

  function After(q: Queue, step: Step, max: nat): Queue
    requires Possible(q, step) && 0 <= q.inflight <= |q.items|
  {
    match step
    case Publishes(mid, qos) =>
      var placed := max == 0 || q.inflight < max;
      Queue(q.items + [Item(q.next, mid, qos, if placed then Flying(qos) else Invalid)], if placed then q.inflight + 1
            else q.inflight,
            q.next + 1, if placed then q.trace + [Publish(q.next, mid, qos)] else q.trace)
    case Acknowledges(i) =>
      Queue(Acknowledged(q.items, q.inflight, i), StillInFlight(q.items, q.inflight, i), q.next, q.trace
            + WhatIsTried(q.items, q.inflight))
    case Confirms(i) => q.(items := q.items[i := q.items[i].(state := WaitForPubcomp)], trace := q.trace
                           + [Pubrec(q.items[i].serial, q.items[i].qos)])
    case Retries(i) => q.(trace := q.trace + [Publish(q.items[i].serial, q.items[i].mid, q.items[i].qos)])
    case Reconnects => q.(items := seq(|q.items|, i requires 0 <= i < |q.items| => ResetItem(q.items[i], i, max)))
  }

  /** The states that a client with an empty queue can reach. */
  ghost predicate Reaches(q: Queue, steps: seq<Step>, max: nat)
    decreases |steps|
  {
    if steps == [] then q == Queue([], 0, 0, [])
    else exists before: Queue ::
      && Reaches(before, steps[..|steps| - 1], max) && Possible(before, steps[|steps| - 1])
      && 0 <= before.inflight <= |before.items|
      && q == After(before, steps[|steps| - 1], max)
  }

  /**
    After every run the messages in flight are the first of the queue, messages were first tried in the order in which
    they were published, with no gap, and no QoS 2 message was sent again after its PUBREC.
  */
  lemma {:induction false} RunsAreSound(q: Queue, steps: seq<Step>, max: nat)
    requires Reaches(q, steps, max)
    ensures InWindow(q.items, max, q.inflight) && Fits(q.items, q.inflight, q.next, q.trace)
    ensures 0 <= Started(q.items, q.inflight, q.next) && Firsts(q.trace) == UpTo(Started(q.items, q.inflight, q.next))
    ensures NeverRegresses(q.trace)
    decreases |steps|
  {
    if steps == [] {
      assert UpTo(0) == [];
    } else {
      var step := steps[|steps| - 1];
      var before: Queue :| Reaches(before, steps[..|steps| - 1], max) && Possible(before, step)
          && 0 <= before.inflight <= |before.items|
                           && q == After(before, step, max);
      RunsAreSound(before, steps[..|steps| - 1], max);
      SoundStep(before, step, max);
    }
  }

  lemma SoundStep(q: Queue, step: Step, max: nat)
    requires Sound(q.items, max, q.inflight, q.next, q.trace) && Possible(q, step) && 0 <= q.inflight <= |q.items|
    ensures var r := After(q, step, max); Sound(r.items, max, r.inflight, r.next, r.trace)
  {
    hide Sound;
    match step {
      case Publishes(mid, qos) =>
        SoundPublish(q.items, max, q.inflight, q.next, q.trace,
                     Item(q.next, mid, qos, if max == 0 || q.inflight < max then Flying(qos) else Invalid));
      case Acknowledges(i) =>
        SoundAcknowledged(q.items, max, q.inflight, q.next, q.trace, i);
      case Confirms(i) => SoundReceived(q.items, max, q.inflight, q.next, q.trace, i);
      case Retries(i) => SoundRetried(q.items, max, q.inflight, q.next, q.trace, i);
      case Reconnects => SoundReset(q.items, max, q.inflight, q.next, q.trace, After(q, step, max).items);
    }
  }
}
