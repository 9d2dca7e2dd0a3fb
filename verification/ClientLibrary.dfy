/** The client library: its two message queues, as linked lists, and the window of messages in flight. */
module ClientLibrary {
  import opened Sequences
  import opened Wrappers
  import opened Topics
  import opened Window

  /** A message that the library has allocated. */
  datatype Message = Message(mid: nat, qos: nat, state: State, dup: bool, timestamp: int, next: Option<nat>)

  /** The allocated messages; freed ones are not in the map. */
  type Heap = map<nat, Message>

  /** What is handed to the network layer, whether or not the connection is there. */
  datatype Packet =
    | PublishPacket(mid: nat, qos: nat, dup: bool)
    | PubackPacket(mid: nat)
    | PubrecPacket(mid: nat)
    | PubrelPacket(mid: nat)
    | PubcompPacket(mid: nat)

  // ----- linked lists -----

  function Head(s: seq<nat>): Option<nat> {
    if s == [] then None else Some(s[0])
  }

  function Tail(s: seq<nat>): Option<nat> {
    if s == [] then None else Some(s[|s| - 1])
  }

  function Next(s: seq<nat>, i: nat): Option<nat> {
    if i + 1 < |s| then Some(s[i + 1]) else None
  }

  /** `head` is the first of the messages `s`, which are linked in this order. */
  predicate Linked(heap: Heap, head: Option<nat>, s: seq<nat>) {
    && head == Head(s) && NoDups(s)
    && forall i | 0 <= i < |s| :: s[i] in heap && heap[s[i]].next == Next(s, i)
  }

  predicate Shows(item: Item, m: Message) {
    item.mid == m.mid && item.qos == m.qos && item.state == m.state && 1 <= m.qos <= 2
    && (m.state == Invalid ==> !m.dup)
  }

  /**
    The PUBLISH packets with QoS 1 or 2 among those that were sent, by packet id and QoS; and the attempts of a trace.
  */
  function Attempts(sent: seq<Packet>): seq<(nat, nat)> {
    if sent == [] then []
    else
      var p := sent[|sent| - 1];
      Attempts(sent[..|sent| - 1]) + if p.PublishPacket? && p.qos > 0 then [(p.mid, p.qos)] else []
  }

  function Tries(trace: seq<Event>): seq<(nat, nat)> {
    if trace == [] then []
    else
      var e := trace[|trace| - 1];
      Tries(trace[..|trace| - 1]) + if e.Publish? then [(e.mid, e.qos)] else []
  }

  lemma OneMorePacket(sent: seq<Packet>, p: Packet)
    ensures Attempts(sent + [p]) == Attempts(sent) + if p.PublishPacket? && p.qos > 0 then [(p.mid, p.qos)] else []
  {
    assert (sent + [p])[..|sent|] == sent;
  }

  lemma OneMoreEvent(trace: seq<Event>, e: Event)
    ensures Tries(trace + [e]) == Tries(trace) + if e.Publish? then [(e.mid, e.qos)] else []
  {
    assert (trace + [e])[..|trace|] == trace;
  }

  predicate AllShown(heap: Heap, s: seq<nat>, items: seq<Item>) {
    |items| == |s| && forall i | 0 <= i < |s| :: s[i] in heap && Shows(items[i], heap[s[i]])
  }

  predicate Incoming(heap: Heap, s: seq<nat>) {
    forall i | 0 <= i < |s| :: s[i] in heap && heap[s[i]].qos == 2 && heap[s[i]].state == WaitForPubrel
  }

  /**
    What is sent for message `p` of the queue when it need not wait any longer: its first PUBLISH, without the mark.
  */
  function WaitingSent(items: seq<Item>, p: int): seq<Packet> {
    if 0 <= p < |items| then [PublishPacket(items[p].mid, items[p].qos, false)] else []
  }

  function WaitingTried(items: seq<Item>, p: int): seq<Event> {
    if 0 <= p < |items| then [Publish(items[p].serial, items[p].mid, items[p].qos)] else []
  }

  /** The two lists of the library, of messages `outs` and `ins`. */
  predicate Lists(heap: Heap, outHead: Option<nat>, outs: seq<nat>, items: seq<Item>, inHead: Option<nat>,
                  ins: seq<nat>) {
    && Linked(heap, outHead, outs) && AllShown(heap, outs, items)
    && Linked(heap, inHead, ins) && Incoming(heap, ins)
    && forall i, j | 0 <= i < |outs| && 0 <= j < |ins| :: outs[i] != ins[j]
  }

  /** The heap after `x` has been linked behind the last message. */
  function LinkedBehind(heap: Heap, last: Option<nat>, x: nat): Heap
    requires x in heap && (last.Some? ==> last.value in heap)
  {
    var heap1 := heap[x := heap[x].(next := None)];
    if last.Some? then heap1[last.value := heap1[last.value].(next := Some(x))] else heap1
  }

  lemma TailBehind(s: seq<nat>, x: nat)
    ensures Tail(s + [x]) == Some(x) && (Tail(s).None? <==> s == [])
    ensures Tail(s) == Some(x) ==> x in s
  {
  }

  lemma LinkedMore(heap: Heap, head: Option<nat>, s: seq<nat>, x: nat)
    requires Linked(heap, head, s) && x in heap && x !in s
    ensures Linked(LinkedBehind(heap, Tail(s), x), if s == [] then Some(x) else head, s + [x])
  {
  }

  /** A list does not notice what happens to other messages. */
  lemma LinkedApart(heap: Heap, heap': Heap, head: Option<nat>, s: seq<nat>)
    requires Linked(heap, head, s) && forall i | 0 <= i < |s| :: s[i] in heap' && heap'[s[i]].next == heap[s[i]].next
    ensures Linked(heap', head, s)
  {
  }

  lemma QueuedOut(heap: Heap, outHead: Option<nat>, outs: seq<nat>, items: seq<Item>, inHead: Option<nat>,
                  ins: seq<nat>, x: nat, item: Item)
    requires Lists(heap, outHead, outs, items, inHead, ins) && x in heap && x !in outs && x !in ins
             && Shows(item, heap[x])
    ensures Lists(LinkedBehind(heap, Tail(outs), x), if outs == [] then Some(x) else outHead, outs + [x], items
                  + [item], inHead, ins)
  {
    LinkedMore(heap, outHead, outs, x);
    LinkedApart(heap, LinkedBehind(heap, Tail(outs), x), inHead, ins);
  }

  lemma QueuedIn(heap: Heap, outHead: Option<nat>, outs: seq<nat>, items: seq<Item>, inHead: Option<nat>, ins: seq<nat>,
                 x: nat)
    requires Lists(heap, outHead, outs, items, inHead, ins) && x in heap && x !in outs && x !in ins
    requires heap[x].qos == 2 && heap[x].state == WaitForPubrel
    ensures Lists(LinkedBehind(heap, Tail(ins), x), outHead, outs, items, if ins == [] then Some(x) else inHead, ins
                  + [x])
  {
    LinkedMore(heap, inHead, ins, x);
    LinkedApart(heap, LinkedBehind(heap, Tail(ins), x), outHead, outs);
  }

  /** The heap after the message behind `prev`, if there is one, has been unlinked. */
  function Unlinked(heap: Heap, prev: Option<nat>, cur: nat): Heap
    requires cur in heap && (prev.Some? ==> prev.value in heap)
  {
    (if prev.Some? then heap[prev.value := heap[prev.value].(next := heap[cur].next)] else heap) - {cur}
  }

  lemma UnlinkedAt(heap: Heap, prev: Option<nat>, cur: nat, x: nat)
    requires cur in heap && (prev.Some? ==> prev.value in heap) && x in heap && x != cur
    ensures var heap' := Unlinked(heap, prev, cur);
            x in heap' && heap'[x] == if prev == Some(x) then heap[x].(next := heap[cur].next) else heap[x]
  {
  }

  /** What follows the message that is number `k` once number `i` is gone. */
  lemma NextKept(heap: Heap, head: Option<nat>, s: seq<nat>, i: nat, k: nat)
    requires Linked(heap, head, s) && i < |s| && k < |s| - 1
    ensures var heap', j := Unlinked(heap, if i > 0 then Some(s[i - 1]) else None, s[i]), Skipping(i, k);
            s[j] in heap' && heap'[s[j]].next == if k + 1 < |s| - 1 then Some(s[Skipping(i, k + 1)]) else None
  {
    hide Unlinked, Head;
    var j := Skipping(i, k);
    assert s[j] in heap && s[i] in heap && (i > 0 ==> s[i - 1] in heap);
    assert s[j] != s[i] && (i > 0 && j != i - 1 ==> s[j] != s[i - 1]);
    UnlinkedAt(heap, if i > 0 then Some(s[i - 1]) else None, s[i], s[j]);
    assert heap[s[j]].next == Next(s, j) && heap[s[i]].next == Next(s, i);
  }

  lemma LinkedLess(heap: Heap, head: Option<nat>, s: seq<nat>, i: nat)
    requires Linked(heap, head, s) && i < |s|
    ensures var prev := if i > 0 then Some(s[i - 1]) else None;
            Linked(Unlinked(heap, prev, s[i]), if i > 0 then head else heap[s[i]].next, Removed(s, i))
  {
    hide Removed, NoDups, Unlinked;
    NoDupsRemoved(s, i);
    RemovedAt(s, i);
    forall k | 0 <= k < |s| - 1
      ensures var heap' := Unlinked(heap, if i > 0 then Some(s[i - 1]) else None, s[i]);
              Removed(s, i)[k] in heap' && heap'[Removed(s, i)[k]].next == Next(Removed(s, i), k)
    {
      NextKept(heap, head, s, i, k);
    }
  }

  lemma RemovedOut(heap: Heap, outHead: Option<nat>, outs: seq<nat>, items: seq<Item>, inHead: Option<nat>,
                   ins: seq<nat>, i: nat)
    requires Lists(heap, outHead, outs, items, inHead, ins) && i < |outs|
    ensures var prev := if i > 0 then Some(outs[i - 1]) else None;
            Lists(Unlinked(heap, prev, outs[i]), if i > 0 then outHead else heap[outs[i]].next, Removed(outs, i),
                  Removed(items, i), inHead, ins)
  {
    hide Linked, AllShown, Incoming;
    LinkedIn(heap, outHead, outs);
    LinkedLess(heap, outHead, outs, i);
    ShownLess(heap, outs, items, i);
    OthersStay(heap, outs, inHead, ins, i);
  }

  lemma LinkedIn(heap: Heap, head: Option<nat>, s: seq<nat>)
    requires Linked(heap, head, s)
    ensures NoDups(s) && forall k | 0 <= k < |s| :: s[k] in heap
  {
  }

  lemma OthersStay(heap: Heap, outs: seq<nat>, inHead: Option<nat>, ins: seq<nat>, i: nat)
    requires i < |outs| && (forall k | 0 <= k < |outs| :: outs[k] in heap)
    requires Linked(heap, inHead, ins) && Incoming(heap, ins) && forall k, j | 0 <= k < |outs| && 0 <= j < |ins| ::
               outs[k] != ins[j]
    ensures var heap', r := Unlinked(heap, if i > 0 then Some(outs[i - 1]) else None, outs[i]), Removed(outs, i);
            && Linked(heap', inHead, ins) && Incoming(heap', ins)
            && forall k, j | 0 <= k < |r| && 0 <= j < |ins| :: r[k] != ins[j]
  {
    hide Removed, NoDups;
    var heap' := Unlinked(heap, if i > 0 then Some(outs[i - 1]) else None, outs[i]);
    assert forall j | 0 <= j < |ins| :: ins[j] in heap' && heap'[ins[j]] == heap[ins[j]];
    LinkedApart(heap, heap', inHead, ins);
    RemovedAt(outs, i);
  }

  lemma ShownLess(heap: Heap, s: seq<nat>, items: seq<Item>, i: nat)
    requires NoDups(s) && AllShown(heap, s, items) && i < |s|
    ensures AllShown(Unlinked(heap, if i > 0 then Some(s[i - 1]) else None, s[i]), Removed(s, i), Removed(items, i))
  {
    hide Removed;
    RemovedAt(s, i);
    RemovedAt(items, i);
    assert forall k | 0 <= k < |s| - 1 :: s[Skipping(i, k)] != s[i];
  }

  lemma RemovedIn(heap: Heap, outHead: Option<nat>, outs: seq<nat>, items: seq<Item>, inHead: Option<nat>,
                  ins: seq<nat>, i: nat)
    requires Lists(heap, outHead, outs, items, inHead, ins) && i < |ins|
    ensures var prev := if i > 0 then Some(ins[i - 1]) else None;
            Lists(Unlinked(heap, prev, ins[i]), outHead, outs, items, if i > 0 then inHead else heap[ins[i]].next,
                  Removed(ins, i))
  {
    hide Linked, AllShown, Incoming;
    LinkedIn(heap, inHead, ins);
    LinkedLess(heap, inHead, ins, i);
    IncomingLess(heap, ins, i);
    OutsStay(heap, outHead, outs, items, ins, i);
  }

  lemma IncomingLess(heap: Heap, ins: seq<nat>, i: nat)
    requires NoDups(ins) && Incoming(heap, ins) && i < |ins|
    ensures Incoming(Unlinked(heap, if i > 0 then Some(ins[i - 1]) else None, ins[i]), Removed(ins, i))
  {
    hide Removed;
    RemovedAt(ins, i);
    assert forall k | 0 <= k < |ins| - 1 :: ins[Skipping(i, k)] != ins[i];
  }

  lemma OutsStay(heap: Heap, outHead: Option<nat>, outs: seq<nat>, items: seq<Item>, ins: seq<nat>, i: nat)
    requires i < |ins| && (forall k | 0 <= k < |ins| :: ins[k] in heap)
    requires Linked(heap, outHead, outs) && AllShown(heap, outs, items) && forall k, j | 0 <= k < |outs|
             && 0 <= j < |ins| :: outs[k] != ins[j]
    ensures var heap', r := Unlinked(heap, if i > 0 then Some(ins[i - 1]) else None, ins[i]), Removed(ins, i);
            && Linked(heap', outHead, outs) && AllShown(heap', outs, items)
            && forall k, j | 0 <= k < |outs| && 0 <= j < |r| :: outs[k] != r[j]
  {
    hide Removed, NoDups;
    var heap' := Unlinked(heap, if i > 0 then Some(ins[i - 1]) else None, ins[i]);
    assert forall k | 0 <= k < |outs| :: outs[k] in heap' && heap'[outs[k]] == heap[outs[k]];
    LinkedApart(heap, heap', outHead, outs);
    RemovedAt(ins, i);
  }

  /** A message changes, but not the next one. */
  lemma ChangedOut(heap: Heap, outHead: Option<nat>, outs: seq<nat>, items: seq<Item>, inHead: Option<nat>,
                   ins: seq<nat>, i: nat, m: Message)
    requires Lists(heap, outHead, outs, items, inHead, ins) && i < |outs| && m.next == heap[outs[i]].next
    requires m.mid == items[i].mid && m.qos == items[i].qos && (m.state == Invalid ==> !m.dup)
    ensures Lists(heap[outs[i] := m], outHead, outs, items[i := items[i].(state := m.state)], inHead, ins)
  {
    LinkedApart(heap, heap[outs[i] := m], outHead, outs);
    LinkedApart(heap, heap[outs[i] := m], inHead, ins);
  }

  lemma ChangedIn(heap: Heap, outHead: Option<nat>, outs: seq<nat>, items: seq<Item>, inHead: Option<nat>,
                  ins: seq<nat>, i: nat, m: Message)
    requires Lists(heap, outHead, outs, items, inHead, ins) && i < |ins| && m.next == heap[ins[i]].next
    requires m.qos == 2 && m.state == WaitForPubrel
    ensures Lists(heap[ins[i] := m], outHead, outs, items, inHead, ins)
  {
    LinkedApart(heap, heap[ins[i] := m], outHead, outs);
    LinkedApart(heap, heap[ins[i] := m], inHead, ins);
  }

  class Client {
    /** `max_inflight_messages`; 0 stands for no limit. */
    const max: nat
    var heap: Heap
    /** The next address that the allocator returns. */
    var nextFree: nat
    var outMessages: Option<nat>
    var outLast: Option<nat>
    var outLen: int
    var inMessages: Option<nat>
    var inLast: Option<nat>
    var inLen: int
    var inflight: int
    var lastMid: nat
    var sent: seq<Packet>
    /** The messages of the two lists, and those of the first as values. */
    ghost var outs: seq<nat>
    ghost var ins: seq<nat>
    ghost var items: seq<Item>
    /** The number of messages published so far, and what was tried for them. */
    ghost var next: nat
    ghost var trace: seq<Event>

    ghost predicate AllLists()
      reads this
    {
      && Lists(heap, outMessages, outs, items, inMessages, ins) && outLen == |outs| && inLen == |ins|
      && inLast == Tail(ins) && Attempts(sent) == Tries(trace)
      && forall x | x in heap :: x < nextFree
    }

    /** Everything but the place where the next outgoing message is to be linked. */
    ghost predicate ValidButTail()
      reads this
    {
      AllLists() && Sound(items, max, inflight, next, trace)
    }

    ghost predicate Valid()
      reads this
    {
      ValidButTail() && outLast == Tail(outs)
    }

    constructor (max: nat)
      ensures Valid() && this.max == max && outs == [] && items == [] && ins == [] && next == 0 && trace == []
              && sent == [] && lastMid == 0
    {
      this.max := max;
      heap, nextFree, outMessages, outLast, outLen, inMessages, inLast, inLen := map[], 0, None, None, 0, None, None, 0;
      inflight, lastMid, sent := 0, 0, [];
      outs, ins, items, next, trace := [], [], [], 0, [];
      new;
      assert UpTo(0) == [];
    }

    /** `_mosquitto_mid_generate`: 16 bits, never 0. */
    method MidGenerate() returns (mid: nat)
      modifies this`lastMid
      ensures mid == lastMid && 1 <= mid <= 65535 && mid % 65535 == (old(lastMid) % 65536 + 1) % 65535
    {
      lastMid := (lastMid + 1) % 65536;
      if lastMid == 0 {
        lastMid := 1;
      }
      mid := lastMid;
    }

    /** Memory for one more message, which is in neither list yet. */
    method Allocate(m: Message) returns (x: nat)
      requires AllLists()
      modifies this`heap, this`nextFree
      ensures AllLists() && x == old(nextFree) && x !in old(heap) && heap == old(heap)[x := m] && x !in outs
              && x !in ins
    {
      hide Lists, Attempts, Tries;
      x := nextFree;
      Allocated(heap, outMessages, outs, items, inMessages, ins, x, m);
      heap, nextFree := heap[x := m], nextFree + 1;
    }

    /**
      `_mosquitto_message_queue` for an outgoing message: link it at the end; `rc` is 1 if there is no place for it.
    */
    method QueueOut(x: nat, ghost item: Item) returns (rc: nat)
      requires AllLists() && outLast == Tail(outs) && (outLast.Some? ==> outLast.value in heap) && x in heap
               && x !in outs && x !in ins && Shows(item, heap[x])
      modifies this`heap, this`outMessages, this`outLast, this`outLen, this`inflight, this`outs, this`items
      ensures AllLists() && outLast == Tail(outs) && outs == old(outs) + [x] && items == old(items) + [item]
      ensures rc == (if max == 0 || old(inflight) < max then 0 else 1) && inflight == old(inflight) + 1 - rc
      ensures x in heap && heap[x] == old(heap)[x].(next := None)
    {
      hide Lists, Attempts, Tries, LinkedBehind, Tail;
      QueuedOut(heap, outMessages, outs, items, inMessages, ins, x, item);
      ListsTails(heap, outMessages, outs, items, inMessages, ins);
      TailBehind(outs, x);
      rc := 0;
      Attach(x);
      outs, items := outs + [x], items + [item];
      if heap[x].qos > 0 {
        if max == 0 || inflight < max {
          inflight := inflight + 1;
        } else {
          rc := 1;
        }
      }
    }

    /** The pointers to a message that is linked at the end. */
    method Attach(x: nat)
      requires x in heap && (outLast.Some? ==> outLast.value in heap) && outLast != Some(x)
      modifies this`heap, this`outMessages, this`outLast, this`outLen
      ensures heap == LinkedBehind(old(heap), old(outLast), x) && heap.Keys == old(heap).Keys
              && heap[x] == old(heap)[x].(next := None)
      ensures outMessages == if old(outLast).Some? then old(outMessages) else Some(x)
      ensures outLast == Some(x) && outLen == old(outLen) + 1
    {
      outLen := outLen + 1;
      heap := heap[x := heap[x].(next := None)];
      if outLast.Some? {
        heap := heap[outLast.value := heap[outLast.value].(next := Some(x))];
      } else {
        outMessages := Some(x);
      }
      outLast := Some(x);
    }

    /** The same for an incoming one. */
    method QueueIn(x: nat)
      requires ValidButTail() && x in heap && x !in outs && x !in ins && heap[x].qos == 2
               && heap[x].state == WaitForPubrel
      modifies this`heap, this`inMessages, this`inLast, this`inLen, this`ins
      ensures ValidButTail() && ins == old(ins) + [x]
      ensures x in heap && heap[x] == old(heap)[x].(next := None)
    {
      hide Lists, Attempts, Tries, Sound;
      QueuedIn(heap, outMessages, outs, items, inMessages, ins, x);
      ListsTails(heap, outMessages, outs, items, inMessages, ins);
      inLen := inLen + 1;
      heap := heap[x := heap[x].(next := None)];
      if inLast.Some? {
        heap := heap[inLast.value := heap[inLast.value].(next := Some(x))];
      } else {
        inMessages := Some(x);
      }
      inLast := Some(x);
      ins := ins + [x];
    }

    /** `_mosquitto_send_publish`; what becomes of the packet does not matter here. */
    method SendPublish(x: nat, ghost i: nat)
      requires AllLists() && i < |outs| == |items| && outs[i] == x && x in heap && Shows(items[i], heap[x])
      modifies this`sent, this`trace
      ensures AllLists()
      ensures sent == old(sent) + [PublishPacket(heap[x].mid, heap[x].qos, heap[x].dup)]
      ensures trace == old(trace) + [Publish(items[i].serial, items[i].mid, items[i].qos)]
    {
      hide Lists, Attempts, Tries;
      OneMorePacket(sent, PublishPacket(heap[x].mid, heap[x].qos, heap[x].dup));
      OneMoreEvent(trace, Publish(items[i].serial, items[i].mid, items[i].qos));
      sent := sent + [PublishPacket(heap[x].mid, heap[x].qos, heap[x].dup)];
      trace := trace + [Publish(items[i].serial, items[i].mid, items[i].qos)];
    }

    /** Message number `i` of the out-queue changes, but not its place. */
    method Change(x: nat, m: Message, ghost i: nat)
      requires AllLists() && i < |outs| == |items| && outs[i] == x && x in heap
      requires m.next == heap[x].next && m.mid == heap[x].mid && m.qos == heap[x].qos
               && (m.state == Invalid ==> !m.dup)
      modifies this`heap, this`items
      ensures AllLists() && items == old(items)[i := old(items)[i].(state := m.state)]
      ensures heap == old(heap)[x := m]
    {
      ListsAt(heap, outMessages, outs, items, inMessages, ins, i);
      hide Lists, Attempts, Tries;
      ChangedOut(heap, outMessages, outs, items, inMessages, ins, i, m);
      heap := heap[x := m];
      items := items[i := items[i].(state := m.state)];
    }

    /**
      `mosquitto_publish`. A message with QoS 1 or 2 is queued, and tried at once if there is a place for it.
    */
    method PublishMessage(topic: string, payloadlen: int, qos: nat, now: int) returns (mid: Option<nat>)
      requires Valid()
      modifies this
      ensures Valid() && ins == old(ins)
      ensures mid.None? <==>
                qos > 2 || !ValidTopic(topic) || |topic| > 65535 || payloadlen < 0 || payloadlen > 268435455
      ensures mid.None? || qos == 0 ==>
                items == old(items) && next == old(next) && trace == old(trace) && inflight == old(inflight)
      ensures mid.None? ==> sent == old(sent) && lastMid == old(lastMid)
      ensures mid.Some? ==>
                mid.value == lastMid && 1 <= lastMid <= 65535 && lastMid % 65535 == (old(lastMid) % 65536 + 1) % 65535
      ensures mid.Some? && qos == 0 ==> sent == old(sent) + [PublishPacket(mid.value, 0, false)]
      ensures mid.Some? && qos > 0 ==>
                var placed := max == 0 || old(inflight) < max;
                && items == old(items) + [Item(old(next), mid.value, qos, if placed then Flying(qos) else Invalid)]
                && next == old(next) + 1
                && trace == old(trace) + (if placed then [Publish(old(next), mid.value, qos)] else [])
                && sent == old(sent) + (if placed then [PublishPacket(mid.value, qos, false)] else [])
    {
      hide Lists, Attempts, Tries, Sound, Literal;
      if qos > 2 || topic == "" {
        return None;
      }
      if payloadlen < 0 || payloadlen > 268435455 {
        return None;
      }
      var ok := PubTopicCheck(topic);
      if !ok {
        return None;
      }
      var id := MidGenerate();
      mid := Some(id);
      if qos == 0 {
        OneMorePacket(sent, PublishPacket(id, 0, false));
        sent := sent + [PublishPacket(id, 0, false)];
      } else {
        PublishTracked(id, qos, now);
      }
    }

    method PublishTracked(mid: nat, qos: nat, now: int)
      requires Valid() && 1 <= qos <= 2
      modifies this`heap, this`nextFree, this`outMessages, this`outLast, this`outLen, this`inflight, this`sent,
               this`outs, this`items, this`next, this`trace
      ensures Valid() && next == old(next) + 1
      ensures var placed := max == 0 || old(inflight) < max;
              && items == old(items) + [Item(old(next), mid, qos, if placed then Flying(qos) else Invalid)]
              && trace == old(trace) + (if placed then [Publish(old(next), mid, qos)] else [])
              && sent == old(sent) + (if placed then [PublishPacket(mid, qos, false)] else [])
    {
      hide Lists, Attempts, Tries, Sound, NoDups;
      ghost var item := Item(next, mid, qos, Invalid);
      ghost var items0, inflight0 := items, inflight;
      var x, rc := Enqueue(mid, qos, now, item);
      ghost var i := |items0|;
      if rc == 0 {
        ghost var flying := item.(state := Flying(qos));
        SoundPublish(items0, max, inflight0, next, trace, flying);
        Change(x, heap[x].(state := if qos == 1 then WaitForPuback else WaitForPubrec), i);
        SendPublish(x, i);
        assert items == items0 + [flying];
      } else {
        SoundPublish(items0, max, inflight0, next, trace, item);
        assert trace + [] == trace && sent + [] == sent;
      }
      next := next + 1;
    }

    method Enqueue(mid: nat, qos: nat, now: int, ghost item: Item) returns (x: nat, rc: nat)
      requires AllLists() && outLast == Tail(outs) && 1 <= qos <= 2 && item.mid == mid && item.qos == qos
               && item.state == Invalid
      modifies this`heap, this`nextFree, this`outMessages, this`outLast, this`outLen, this`inflight, this`outs,
               this`items
      ensures AllLists() && outLast == Tail(outs) && items == old(items) + [item] && |outs| == |items|
              && outs[|old(items)|] == x
      ensures rc == (if max == 0 || old(inflight) < max then 0 else 1) && inflight == old(inflight) + 1 - rc
      ensures x in heap && heap[x].mid == mid && heap[x].qos == qos && !heap[x].dup
    {
      hide Lists, Attempts, Tries;
      ListsTails(heap, outMessages, outs, items, inMessages, ins);
      x := Allocate(Message(mid, qos, Invalid, false, now, None));
      rc := QueueOut(x, item);
      ListsAt(heap, outMessages, outs, items, inMessages, ins, 0);
    }

    /** The loop that looks for an outgoing message by its id: it is number `i`, behind `prev`. */
    method FindOut(mid: nat) returns (cur: Option<nat>, prev: Option<nat>, ghost i: nat)
      requires AllLists()
      ensures i <= |outs| == |items| && cur == (if i < |outs| then Some(outs[i]) else None)
              && prev == (if 0 < i then Some(outs[i - 1]) else None)
      ensures (forall j | 0 <= j < i :: items[j].mid != mid) && (i < |outs| ==> items[i].mid == mid)
    {
      hide Lists, Attempts, Tries;
      ListsAt(heap, outMessages, outs, items, inMessages, ins, 0);
      cur, prev, i := outMessages, None, 0;
      while cur.Some?
        invariant i <= |outs| == |items| && cur == (if i < |outs| then Some(outs[i]) else None) && prev == if 0 < i
                  then Some(outs[i - 1]) else None
        invariant forall j | 0 <= j < i :: items[j].mid != mid
        decreases |outs| - i
      {
        ListsAt(heap, outMessages, outs, items, inMessages, ins, i);
        if heap[cur.value].mid == mid {
          return;
        }
        prev := cur;
        cur := heap[cur.value].next;
        i := i + 1;
      }
    }

    /**
      `_mosquitto_message_remove` of an outgoing message: it is unlinked and freed, and the first message that waits is
      tried in its place, unless an earlier send fails. `failing` says whether the send fails.
    */
    method RemoveOut(mid: nat, failing: bool) returns (found: bool, rc: nat, ghost i: nat)
      requires Valid()
      modifies this`heap, this`outMessages, this`outLast, this`outLen, this`inflight, this`sent, this`outs, this`items,
               this`trace
      ensures AllLists() && outLast == Tail(outs)
      ensures found <==> exists j :: 0 <= j < |old(items)| && old(items)[j].mid == mid
      ensures !found ==> Valid() && items == old(items) && trace == old(trace) && sent == old(sent)
      ensures found ==>
                i < |old(items)| && old(items)[i].mid == mid && (forall j | 0 <= j < i :: old(items)[j].mid != mid)
      ensures found ==> 0 <= old(inflight) <= |old(items)|
                        && items == Acknowledged(old(items), old(inflight), i)
                        && inflight == StillInFlight(old(items), old(inflight), i)
      // The window is as it should be just when the acknowledged message had been sent.
      ensures found ==> (Valid() <==> i < old(inflight))
      ensures found && i < old(inflight) ==> trace == old(trace) + WhatIsTried(old(items), old(inflight))
      ensures found && i < old(inflight) ==> sent == old(sent) + WaitingSent(old(items), old(inflight))
    {
      hide Lists, Attempts, Tries, Sound;
      var cur, prev;
      cur, prev, i := FindOut(mid);
      rc := 0;
      found := cur.Some?;
      if found {
        WindowLengthOf(items, max, inflight, next, trace);
        RemoveCounted(items, max, inflight, next, trace, i);
        Unlink(cur.value, prev, i);
        rc := Promote(Waiting(old(inflight), i), failing);
      }
    }

    /** Message number `i`, which is behind `prev`, is unlinked and freed. */
    method Unlink(cur: nat, prev: Option<nat>, ghost i: nat)
      requires AllLists() && outLast == Tail(outs) && i < |outs| == |items| && cur == outs[i] && prev == if 0 < i
               then Some(outs[i - 1]) else None
      modifies this`heap, this`outMessages, this`outLast, this`outLen, this`inflight, this`outs, this`items
      ensures AllLists() && outLast == Tail(outs)
      ensures items == Removed(old(items), i) && inflight == old(inflight) - 1
    {
      hide Lists, Attempts, Tries, Tail, Removed, Unlinked;
      ListsAt(heap, outMessages, outs, items, inMessages, ins, i);
      if i > 0 { ListsAt(heap, outMessages, outs, items, inMessages, ins, i - 1); }
      RemovedOut(heap, outMessages, outs, items, inMessages, ins, i);
      TailRemoved(outs, i);
      Bypass(cur, prev);
      outs, items := Removed(outs, i), Removed(items, i);
    }

    /** The pointers around a message, the counters, and its memory. */
    method Bypass(cur: nat, prev: Option<nat>)
      requires cur in heap && (if prev.Some? then prev.value in heap && outMessages.Some? else outMessages == Some(cur))
      modifies this`heap, this`outMessages, this`outLast, this`outLen, this`inflight
      ensures heap == Unlinked(old(heap), prev, cur) && forall x | x in heap :: x in old(heap)
      ensures outMessages == if prev.Some? then old(outMessages) else old(heap)[cur].next
      ensures outLast == if old(heap)[cur].next.None? then prev else old(outLast)
      ensures outLen == old(outLen) - 1 && inflight == old(inflight) - if old(heap)[cur].qos > 0 then 1 else 0
    {
      var next := heap[cur].next;
      var qos := heap[cur].qos;
      if prev.Some? {
        heap := heap[prev.value := heap[prev.value].(next := next)];
      } else {
        outMessages := next;
      }
      outLen := outLen - 1;
      // Where there is a next message the list cannot be empty: the second test of the source never succeeds.
      assert next.Some? ==> outMessages.Some?;
      if next.None? {
        outLast := prev;
      }
      if qos > 0 {
        inflight := inflight - 1;
      }
      heap := heap - {cur};
    }

    /** The second loop: the first message that waits, which is number `p`, is tried if there is one. */
    method Promote(ghost p: int, failing: bool) returns (rc: nat)
      requires AllLists() && 0 <= p <= |items|
      requires forall k | 0 <= k < |items| :: items[k].state == Invalid <==> k >= p
      requires p < |items| ==> max > 0 && inflight == max - 1
      modifies this`heap, this`inflight, this`sent, this`items, this`trace
      ensures AllLists()
      ensures items == (if p < |old(items)| then old(items)[p := old(items)[p].(state := Flying(old(items)[p].qos))]
                        else old(items))
      ensures inflight == old(inflight) + if p < |old(items)| then 1 else 0
      ensures trace == old(trace) + WaitingTried(old(items), p)
      ensures sent == old(sent) + WaitingSent(old(items), p)
    {
      hide Lists, Attempts, Tries;
      ListsAt(heap, outMessages, outs, items, inMessages, ins, 0);
      var cur := outMessages;
      ghost var i, done := 0, false;
      while cur.Some?
        invariant AllLists() && i <= |outs| == |items| && cur == if i < |outs| then Some(outs[i]) else None
        invariant if done then
                    && p < |old(items)| && max > 0 && inflight == max
                    && items == old(items)[p := old(items)[p].(state := Flying(old(items)[p].qos))]
                    && trace == old(trace) + WaitingTried(old(items), p)
                    && sent == old(sent) + WaitingSent(old(items), p) && inflight == old(inflight) + 1
                  else i <= p && items == old(items) && trace == old(trace) && sent == old(sent)
                       && inflight == old(inflight)
        decreases |outs| - i
      {
        ListsAt(heap, outMessages, outs, items, inMessages, ins, i);
        if max == 0 || inflight < max {
          var x := cur.value;
          if heap[x].qos > 0 && heap[x].state == Invalid {
            StartOne(x, i);
            done := true;
            if failing {
              return 1;
            }
          }
        } else {
          return 0;
        }
        cur := heap[cur.value].next;
        i := i + 1;
      }
      return 0;
    }

    method StartOne(x: nat, ghost i: nat)
      requires AllLists() && i < |outs| == |items| && outs[i] == x && x in heap && Shows(items[i], heap[x])
               && heap[x].state == Invalid
      modifies this`heap, this`inflight, this`sent, this`items, this`trace
      ensures AllLists() && items == old(items)[i := old(items)[i].(state := Flying(old(items)[i].qos))]
      ensures inflight == old(inflight) + 1 && trace == old(trace) + WaitingTried(old(items), i)
              && sent == old(sent) + WaitingSent(old(items), i)
      ensures x in heap && heap[x].next == old(heap)[x].next
    {
      hide Lists, Attempts, Tries;
      inflight := inflight + 1;
      Change(x, heap[x].(state := if heap[x].qos == 1 then WaitForPuback else WaitForPubrec), i);
      ListsAt(heap, outMessages, outs, items, inMessages, ins, i);
      SendPublish(x, i);
    }

    /** `_mosquitto_handle_pubrec`: the message waits for its PUBCOMP from now on. The PUBREL is sent in any case. */
    method HandlePubrec(mid: nat, now: int) returns (found: bool, ghost i: nat)
      requires Valid()
      modifies this`heap, this`sent, this`items, this`trace
      ensures AllLists() && outLast == Tail(outs) && sent == old(sent) + [PubrelPacket(mid)]
      ensures found <==> exists j :: 0 <= j < |old(items)| && old(items)[j].mid == mid
      ensures !found ==> Valid() && items == old(items) && trace == old(trace)
      ensures found ==>
                i < |old(items)| && old(items)[i].mid == mid && (forall j | 0 <= j < i :: old(items)[j].mid != mid)
      ensures found ==> items == old(items)[i := old(items)[i].(state := WaitForPubcomp)]
      ensures found ==> trace == old(trace) + [Pubrec(old(items)[i].serial, old(items)[i].qos)]
      // Again all is well just when the message had been sent.
      ensures found ==> (Valid() <==> i < inflight)
    {
      hide Lists, Attempts, Tries, Sound;
      var cur, prev;
      cur, prev, i := FindOut(mid);
      found := cur.Some?;
      if found {
        UpdateCounted(items, max, inflight, next, trace, i);
        ListsAt(heap, outMessages, outs, items, inMessages, ins, i);
        OneMoreEvent(trace, Pubrec(items[i].serial, items[i].qos));
        trace := trace + [Pubrec(items[i].serial, items[i].qos)];
        Change(cur.value, heap[cur.value].(state := WaitForPubcomp, timestamp := now), i);
      }
      OneMorePacket(sent, PubrelPacket(mid));
      sent := sent + [PubrelPacket(mid)];
    }

    /** A PUBLISH with QoS 2 comes in: it is answered and queued until it is released. */
    method ReceivePublish(mid: nat, now: int)
      requires Valid()
      modifies this`heap, this`nextFree, this`inMessages, this`inLast, this`inLen, this`sent, this`ins
      ensures Valid() && ins == old(ins) + [old(nextFree)] && sent == old(sent) + [PubrecPacket(mid)]
      ensures old(nextFree) in heap && heap[old(nextFree)].mid == mid
    {
      hide Lists, Attempts, Tries, Sound;
      OneMorePacket(sent, PubrecPacket(mid));
      sent := sent + [PubrecPacket(mid)];
      var x := Allocate(Message(mid, 2, WaitForPubrel, false, now, None));
      QueueIn(x);
    }

    /** `_mosquitto_message_remove` of an incoming message, the first one with the id. */
    method RemoveIn(mid: nat) returns (found: bool, ghost i: nat)
      requires Valid()
      modifies this`heap, this`inMessages, this`inLast, this`inLen, this`ins
      ensures Valid()
      ensures found ==>
                i < |old(ins)| && old(ins)[i] in old(heap) && old(heap)[old(ins)[i]].mid == mid
                && ins == Removed(old(ins), i)
      ensures !found ==>
                ins == old(ins) && heap == old(heap) && forall j | 0 <= j < |ins| && ins[j] in heap ::
                  heap[ins[j]].mid != mid
    {
      hide Lists, Attempts, Tries, Sound;
      ListsAt(heap, outMessages, outs, items, inMessages, ins, 0);
      var cur, prev := inMessages, None;
      i := 0;
      while cur.Some?
        invariant unchanged(this)
        invariant i <= |ins| && cur == (if i < |ins| then Some(ins[i]) else None) && prev == if 0 < i
                  then Some(ins[i - 1]) else None
        invariant forall j | 0 <= j < i && ins[j] in heap :: heap[ins[j]].mid != mid
        decreases |ins| - i
      {
        ListsAt(heap, outMessages, outs, items, inMessages, ins, i);
        if heap[cur.value].mid == mid {
          UnlinkIn(cur.value, prev, i);
          return true, i;
        }
        prev := cur;
        cur := heap[cur.value].next;
        i := i + 1;
      }
      return false, i;
    }

    method UnlinkIn(cur: nat, prev: Option<nat>, ghost i: nat)
      requires Valid() && i < |ins| && cur == ins[i] && prev == if 0 < i then Some(ins[i - 1]) else None
      modifies this`heap, this`inMessages, this`inLast, this`inLen, this`ins
      ensures Valid() && ins == Removed(old(ins), i)
    {
      hide Lists, Attempts, Tries, Sound, Tail, Removed;
      ListsAt(heap, outMessages, outs, items, inMessages, ins, i);
      if i > 0 { ListsAt(heap, outMessages, outs, items, inMessages, ins, i - 1); }
      RemovedIn(heap, outMessages, outs, items, inMessages, ins, i);
      var next := heap[cur].next;
      if prev.Some? {
        heap := heap[prev.value := heap[prev.value].(next := next)];
      } else {
        inMessages := next;
      }
      inLen := inLen - 1;
      assert next.Some? ==> inMessages.Some?;
      if next.None? {
        inLast := prev;
      }
      heap := heap - {cur};
      TailRemoved(ins, i);
      ins := Removed(ins, i);
    }

    /** `_mosquitto_handle_pubrel`; the PUBCOMP is sent even if there was nothing to pass on. */
    method HandlePubrel(mid: nat) returns (passedOn: bool)
      requires Valid()
      modifies this`heap, this`inMessages, this`inLast, this`inLen, this`sent, this`ins
      ensures Valid() && sent == old(sent) + [PubcompPacket(mid)]
      ensures passedOn <==>
                exists i :: 0 <= i < |old(ins)| && old(ins)[i] in old(heap) && old(heap)[old(ins)[i]].mid == mid
      ensures |ins| == |old(ins)| - if passedOn then 1 else 0
    {
      hide Lists, Attempts, Tries, Sound;
      ghost var i;
      passedOn, i := RemoveIn(mid);
      OneMorePacket(sent, PubcompPacket(mid));
      sent := sent + [PubcompPacket(mid)];
    }

    // ----- reconnecting -----

    /**
      `_mosquitto_messages_reconnect_reset`. The pointer that trails the first loop is the one that the second starts
      with, so that the tail of an empty out-queue becomes that of the in-queue.
    */
    method ReconnectReset()
      requires Valid()
      modifies this`heap, this`outLast, this`outLen, this`inLast, this`inLen, this`inflight, this`items
      ensures ValidButTail() && |items| == |old(items)| && forall i | 0 <= i < |items| ::
                items[i] == ResetItem(old(items)[i], i, max)
      ensures outLast == if outs != [] then Tail(outs) else Tail(ins)
      // The queue is in order after it just when it was not empty or nothing was coming in.
      ensures Valid() <==> outs != [] || ins == []
    {
      hide Lists, Attempts, Tries, Sound;
      var prev := ResetIn();
      outLast := ResetOut(prev);
    }

    method ResetIn() returns (prev: Option<nat>)
      requires Valid()
      modifies this`heap, this`inLast, this`inLen
      ensures Valid() && prev == Tail(ins)
    {
      hide Lists, Attempts, Tries, Sound;
      ListsAt(heap, outMessages, outs, items, inMessages, ins, 0);
      var message := inMessages;
      prev := None;
      var len := 0;
      while message.Some?
        invariant AllLists() && len <= |ins| && message == (if len < |ins| then Some(ins[len]) else None)
        invariant prev == if 0 < len then Some(ins[len - 1]) else None
        decreases |ins| - len
      {
        var x := message.value;
        ListsAt(heap, outMessages, outs, items, inMessages, ins, len);
        ChangedIn(heap, outMessages, outs, items, inMessages, ins, len, heap[x].(timestamp := 0));
        // An incoming message has QoS 2 and keeps its state; others would be removed here.
        heap := heap[x := heap[x].(timestamp := 0)];
        len := len + 1;
        prev := message;
        message := heap[x].next;
      }
      inLen := len;
      inLast := prev;
    }

    method ResetOut(start: Option<nat>) returns (prev: Option<nat>)
      requires Valid()
      modifies this`heap, this`outLen, this`inflight, this`items
      ensures ValidButTail() && |items| == |old(items)| && forall i | 0 <= i < |items| ::
                items[i] == ResetItem(old(items)[i], i, max)
      ensures prev == if outs != [] then Tail(outs) else start
    {
      hide Lists, Attempts, Tries, Sound;
      ListsAt(heap, outMessages, outs, items, inMessages, ins, 0);
      BeyondWaits(items, max, inflight, next, trace);
      var message := outMessages;
      prev := start;
      inflight := 0;
      var len := 0;
      while message.Some?
        invariant AllLists() && |items| == |old(items)| && len <= |outs|
                  && message == (if len < |outs| then Some(outs[len]) else None)
        invariant prev == if 0 < len then Some(outs[len - 1]) else start
        invariant inflight == Places(len, max)
        invariant forall i | 0 <= i < |items| ::
                    items[i] == if i < len then ResetItem(old(items)[i], i, max) else old(items)[i]
        decreases |outs| - len
      {
        var x := message.value;
        ListsAt(heap, outMessages, outs, items, inMessages, ins, len);
        ResetOne(x, len);
        len := len + 1;
        prev := message;
        message := heap[x].next;
      }
      outLen := len;
      ResetCounted(old(items), max, old(inflight), next, trace, items);
    }

    /** One turn of the loop: the message keeps its state as far as it goes, or waits again. */
    method ResetOne(x: nat, ghost i: nat)
      requires AllLists() && i < |outs| == |items| && outs[i] == x && x in heap && Shows(items[i], heap[x])
               && inflight == Places(i, max) && (0 < max <= i ==> items[i].state == Invalid)
      modifies this`heap, this`inflight, this`items
      ensures AllLists() && items == old(items)[i := ResetItem(old(items)[i], i, max)] && inflight == Places(i + 1, max)
      ensures x in heap && heap[x].next == old(heap)[x].next
    {
      hide Lists, Attempts, Tries;
      var m := heap[x].(timestamp := 0);
      if max == 0 || inflight < max {
        if m.qos > 0 {
          inflight := inflight + 1;
        }
        if m.qos == 1 {
          m := m.(state := WaitForPuback);
        }
      } else {
        m := m.(state := Invalid);
      }
      Change(x, m, i);
    }

    // ----- retrying -----

    /**
      `_mosquitto_message_retry_check`: every message whose time has come is answered for again, in the order of the two
      lists.
    */
    method RetryCheck(now: int, retry: nat)
      requires Valid()
      modifies this`heap, this`sent, this`items, this`trace
      ensures Valid() && items == old(items) && outs == old(outs) && ins == old(ins)
      ensures sent == old(sent) + AllRetries(old(heap), outs, now, retry) + AllRetries(old(heap), ins, now, retry)
      ensures AllRetried(old(heap), heap, outs + ins, now, retry)
      ensures |old(trace)| <= |trace| && trace[..|old(trace)|] == old(trace)
      ensures forall k | |old(trace)| <= k < |trace| :: RetriedFor(trace[k], old(items))
    {
      hide Lists, Attempts, Tries, Sound, RetriedFor, AllRetried;
      ListsApart(heap, outMessages, outs, items, inMessages, ins);
      RetryOut(now, retry);
      RetriesApart(old(heap), heap, outs, ins, now, retry);
      ghost var heap1 := heap;
      RetryIn(now, retry);
      RetriedBoth(old(heap), heap1, heap, outs, ins, now, retry);
    }

    method RetryOut(now: int, retry: nat)
      requires Valid()
      modifies this`heap, this`sent, this`items, this`trace
      ensures Valid() && items == old(items)
      ensures sent == old(sent) + AllRetries(old(heap), outs, now, retry)
              && AllRetried(old(heap), heap, outs, now, retry)
      ensures |old(trace)| <= |trace| && trace[..|old(trace)|] == old(trace)
      ensures forall k | |old(trace)| <= k < |trace| :: RetriedFor(trace[k], old(items))
    {
      hide Lists, Attempts, Tries, Sound, RetriedFor, AllRetried, AllRetries, Retried;
      ListsAt(heap, outMessages, outs, items, inMessages, ins, 0);
      ListsApart(heap, outMessages, outs, items, inMessages, ins);
      var message := outMessages;
      ghost var i := 0;
      NoneRetried(heap, outs, now, retry);
      assert sent + [] == sent;
      while message.Some?
        invariant Valid() && items == old(items) && i <= |outs| == |items| && message == if i < |outs|
                  then Some(outs[i]) else None
        invariant sent == old(sent) + AllRetries(old(heap), outs[..i], now, retry)
                  && AllRetried(old(heap), heap, outs[..i], now, retry)
        invariant |old(trace)| <= |trace| && trace[..|old(trace)|] == old(trace)
        invariant forall k | |old(trace)| <= k < |trace| :: RetriedFor(trace[k], old(items))
        decreases |outs| - i
      {
        ListsAt(heap, outMessages, outs, items, inMessages, ins, i);
        OneMoreRetried(old(heap), heap, outs, i, now, retry);
        RetryOne(message.value, now, retry, i);
        message := heap[message.value].next;
        i := i + 1;
      }
      assert outs[..i] == outs;
    }

    method RetryOne(x: nat, now: int, retry: nat, ghost i: nat)
      requires Valid() && i < |outs| == |items| && outs[i] == x && x in heap && Shows(items[i], heap[x])
      modifies this`heap, this`sent, this`items, this`trace
      ensures Valid() && items == old(items) && x in heap && heap[x].next == old(heap)[x].next
      ensures heap == old(heap)[x := Retried(old(heap)[x], now, retry)] && sent == old(sent)
              + RetryOf(old(heap)[x], now, retry)
      ensures trace == old(trace) || exists e :: trace == old(trace) + [e] && RetriedFor(e, old(items))
    {
      hide Lists, Attempts, Tries, Sound, RetriedFor;
      var m := heap[x];
      assert heap == heap[x := m];
      if m.timestamp + retry < now {
        match m.state {
          case WaitForPuback | WaitForPubrec =>
            Again(x, m.(timestamp := now, dup := true), i);
            RetriedSound(items, max, inflight, next, trace, i);
            SendPublish(x, i);
          case WaitForPubrel =>
            Again(x, m.(timestamp := now, dup := true), i);
            OneMorePacket(sent, PubrecPacket(m.mid));
            sent := sent + [PubrecPacket(m.mid)];
          case WaitForPubcomp =>
            Again(x, m.(timestamp := now, dup := true), i);
            OneMorePacket(sent, PubrelPacket(m.mid));
            sent := sent + [PubrelPacket(m.mid)];
          case _ =>
        }
      }
    }

    method Again(x: nat, m: Message, ghost i: nat)
      requires Valid() && i < |outs| == |items| && outs[i] == x && x in heap
      requires m.mid == heap[x].mid && m.qos == heap[x].qos && m.state == heap[x].state && m.next == heap[x].next
               && m.state != Invalid
      modifies this`heap, this`items
      ensures Valid() && items == old(items) && heap == old(heap)[x := m]
    {
      hide Lists, Attempts, Tries, Sound;
      ListsAt(heap, outMessages, outs, items, inMessages, ins, i);
      assert items[i := items[i].(state := m.state)] == items;
      Change(x, m, i);
    }

    method RetryIn(now: int, retry: nat)
      requires Valid()
      modifies this`heap, this`sent
      ensures Valid() && sent == old(sent) + AllRetries(old(heap), ins, now, retry)
              && AllRetried(old(heap), heap, ins, now, retry)
    {
      hide Lists, Attempts, Tries, Sound, AllRetried, AllRetries;
      ListsAt(heap, outMessages, outs, items, inMessages, ins, 0);
      ListsApart(heap, outMessages, outs, items, inMessages, ins);
      var message := inMessages;
      ghost var i := 0;
      NoneRetried(heap, ins, now, retry);
      assert sent + [] == sent;
      while message.Some?
        invariant Valid() && i <= |ins| && message == if i < |ins| then Some(ins[i]) else None
        invariant sent == old(sent) + AllRetries(old(heap), ins[..i], now, retry)
                  && AllRetried(old(heap), heap, ins[..i], now, retry)
        decreases |ins| - i
      {
        var x := message.value;
        ListsAt(heap, outMessages, outs, items, inMessages, ins, i);
        OneMoreRetried(old(heap), heap, ins, i, now, retry);
        var m := heap[x];
        assert heap == heap[x := m];
        // An incoming message always waits for its PUBREL.
        if m.timestamp + retry < now {
          ChangedIn(heap, outMessages, outs, items, inMessages, ins, i, m.(timestamp := now, dup := true));
          heap := heap[x := m.(timestamp := now, dup := true)];
          OneMorePacket(sent, PubrecPacket(m.mid));
          sent := sent + [PubrecPacket(m.mid)];
        }
        message := heap[x].next;
        i := i + 1;
      }
      assert ins[..i] == ins;
    }
  }

  /** What is sent again for a message, if its time has come. */
  function RetryOf(m: Message, now: int, retry: nat): seq<Packet> {
    if m.timestamp + retry >= now then []
    else match m.state
      case WaitForPuback => [PublishPacket(m.mid, m.qos, true)]
      case WaitForPubrec => [PublishPacket(m.mid, m.qos, true)]
      case WaitForPubrel => [PubrecPacket(m.mid)]
      case WaitForPubcomp => [PubrelPacket(m.mid)]
      case Invalid => []
  }

  function Retried(m: Message, now: int, retry: nat): Message {
    if RetryOf(m, now, retry) != [] then m.(timestamp := now, dup := true) else m
  }

  function AllRetries(heap: Heap, s: seq<nat>, now: int, retry: nat): seq<Packet> {
    if s == [] then []
    else
      AllRetries(heap, s[..|s| - 1], now, retry)
      + if s[|s| - 1] in heap then RetryOf(heap[s[|s| - 1]], now, retry) else []
  }

  /** The messages `s` have been tried again if it was time, and no other message has changed. */
  ghost predicate AllRetried(before: Heap, after: Heap, s: seq<nat>, now: int, retry: nat) {
    after.Keys == before.Keys && forall x | x in before ::
          after[x] == if x in s then Retried(before[x], now, retry) else before[x]
  }

  lemma NoneRetried(heap: Heap, s: seq<nat>, now: int, retry: nat)
    ensures AllRetries(heap, s[..0], now, retry) == [] && AllRetried(heap, heap, s[..0], now, retry)
  {
  }

  lemma OneMoreRetried(before: Heap, after: Heap, s: seq<nat>, i: nat, now: int, retry: nat)
    requires NoDups(s) && i < |s| && s[i] in after && AllRetried(before, after, s[..i], now, retry)
    ensures s[i] in before && after[s[i]] == before[s[i]]
    ensures AllRetries(before, s[..i + 1], now, retry) == AllRetries(before, s[..i], now, retry)
            + RetryOf(before[s[i]], now, retry)
    ensures AllRetried(before, after[s[i] := Retried(after[s[i]], now, retry)], s[..i + 1], now, retry)
  {
    hide Retried, RetryOf;
    assert s[..i + 1] == s[..i] + [s[i]] && s[..i + 1][..i] == s[..i];
    assert s[i] !in s[..i];
  }

  lemma {:induction false} RetriesApart(before: Heap, after: Heap, others: seq<nat>, s: seq<nat>, now: int, retry: nat)
    requires AllRetried(before, after, others, now, retry) && forall j | 0 <= j < |s| :: s[j] !in others
    ensures AllRetries(after, s, now, retry) == AllRetries(before, s, now, retry)
  {
    hide RetryOf;
    if s != [] {
      RetriesApart(before, after, others, s[..|s| - 1], now, retry);
    }
  }

  lemma RetriedBoth(before: Heap, middle: Heap, after: Heap, s: seq<nat>, t: seq<nat>, now: int, retry: nat)
    requires AllRetried(before, middle, s, now, retry) && AllRetried(middle, after, t, now, retry)
             && forall j | 0 <= j < |t| :: t[j] !in s
    ensures AllRetried(before, after, s + t, now, retry)
  {
    hide Retried;
    assert forall x :: x in s + t <==> x in s || x in t;
  }

  lemma ListsApart(heap: Heap, outHead: Option<nat>, outs: seq<nat>, items: seq<Item>, inHead: Option<nat>,
                   ins: seq<nat>)
    requires Lists(heap, outHead, outs, items, inHead, ins)
    ensures NoDups(outs) && NoDups(ins) && forall j | 0 <= j < |ins| :: ins[j] !in outs
  {
  }

  /** A retry of one of the messages in flight. */
  ghost predicate RetriedFor(e: Event, items: seq<Item>) {
    exists i ::
          0 <= i < |items| && (items[i].state == WaitForPuback || items[i].state == WaitForPubrec)
          && e == Publish(items[i].serial, items[i].mid, items[i].qos)
  }

  lemma RetriedSound(items: seq<Item>, max: nat, inflight: int, next: nat, trace: seq<Event>, i: nat)
    requires Sound(items, max, inflight, next, trace) && i < |items|
    requires items[i].state == WaitForPuback || items[i].state == WaitForPubrec
    ensures Sound(items, max, inflight, next, trace + [Publish(items[i].serial, items[i].mid, items[i].qos)])
    ensures RetriedFor(Publish(items[i].serial, items[i].mid, items[i].qos), items)
  {
    SoundRetried(items, max, inflight, next, trace, i);
  }

  lemma ResetCounted(items: seq<Item>, max: nat, inflight: int, next: nat, trace: seq<Event>, r: seq<Item>)
    requires Sound(items, max, inflight, next, trace)
    requires |r| == |items| && forall i | 0 <= i < |items| :: r[i] == ResetItem(items[i], i, max)
    ensures Sound(r, max, inflight, next, trace) && inflight == Places(|items|, max)
  {
    SoundReset(items, max, inflight, next, trace, r);
  }

  /** Whether all is well after a PUBREC for message `i`. */
  lemma UpdateCounted(items: seq<Item>, max: nat, inflight: int, next: nat, trace: seq<Event>, i: nat)
    requires Sound(items, max, inflight, next, trace) && i < |items|
    ensures var items' := items[i := items[i].(state := WaitForPubcomp)];
            Sound(items', max, inflight, next, trace + [Pubrec(items[i].serial, items[i].qos)]) <==> i < inflight
  {
    WindowReceived(items, max, inflight, i);
    if i < inflight {
      SoundReceived(items, max, inflight, next, trace, i);
    }
  }

  lemma TailRemoved(s: seq<nat>, i: nat)
    requires i < |s|
    ensures Tail(Removed(s, i)) == if i + 1 < |s| then Tail(s) else if i > 0 then Some(s[i - 1]) else None
    ensures |Removed(s, i)| == |s| - 1
  {
  }

  lemma BeyondWaits(items: seq<Item>, max: nat, inflight: int, next: nat, trace: seq<Event>)
    requires Sound(items, max, inflight, next, trace)
    ensures forall i | 0 < max <= i < |items| :: items[i].state == Invalid
  {
  }

  /** A message that is retried: what is sent again is decided by whether its PUBREC has come. */
  lemma RetryByPhase(items: seq<Item>, max: nat, inflight: int, next: nat, trace: seq<Event>, i: nat, m: Message,
                     now: int, retry: nat)
    requires Sound(items, max, inflight, next, trace) && i < inflight && Shows(items[i], m) && m.timestamp + retry < now
    ensures m.qos == 2 ==>
              RetryOf(m, now, retry) ==
              [if Confirmed(trace, items[i].serial) then PubrelPacket(m.mid) else PublishPacket(m.mid, 2, true)]
    ensures m.qos == 1 && m.state == WaitForPuback ==> RetryOf(m, now, retry) == [PublishPacket(m.mid, 1, true)]
    ensures Retried(m, now, retry) == m.(timestamp := now, dup := true)
  {
    assert StateFits(items[i]);
  }

  /** An incoming message is answered for again. */
  lemma RetryIncoming(m: Message, now: int, retry: nat)
    requires m.qos == 2 && m.state == WaitForPubrel && m.timestamp + retry < now
    ensures RetryOf(m, now, retry) == [PubrecPacket(m.mid)]
  {
  }

  lemma WindowLengthOf(items: seq<Item>, max: nat, inflight: int, next: nat, trace: seq<Event>)
    requires Sound(items, max, inflight, next, trace)
    ensures 0 <= inflight <= |items|
  {
  }

  /** What an acknowledgement of message `i` leads to, and whether all is well after it. */
  lemma RemoveCounted(items: seq<Item>, max: nat, inflight: int, next: nat, trace: seq<Event>, i: nat)
    requires Sound(items, max, inflight, next, trace) && i < |items|
    ensures var rest, p := Removed(items, i), Waiting(inflight, i);
            && 0 <= inflight <= |items| && |rest| == |items| - 1 && 0 <= p <= |rest|
            && (forall k | 0 <= k < |rest| :: rest[k].state == Invalid <==> k >= p)
            && (p < |rest| ==> max > 0 && inflight - 1 == max - 1)
            && (i < inflight && p < |rest| ==> rest[p] == items[inflight])
    ensures i < inflight ==> Sound(Acknowledged(items, inflight, i), max, StillInFlight(items, inflight, i), next,
                                   trace + WhatIsTried(items, inflight))
    ensures forall next', trace' ::
              Sound(Acknowledged(items, inflight, i), max, StillInFlight(items, inflight, i), next', trace') ==>
                    i < inflight
  {
    RestInWindow(items, max, inflight, i);
    WindowAcknowledged(items, max, inflight, i);
    hide InWindow, Fits, Acknowledged, StillInFlight, WhatIsTried, Waiting, Removed;
    if i < inflight {
      SoundAcknowledged(items, max, inflight, next, trace, i);
    }
  }

  lemma RestInWindow(items: seq<Item>, max: nat, inflight: int, i: nat)
    requires InWindow(items, max, inflight) && i < |items|
    ensures var rest, p := Removed(items, i), Waiting(inflight, i);
            && 0 <= inflight <= |items| && |rest| == |items| - 1 && 0 <= p <= |rest|
            && (forall k | 0 <= k < |rest| :: rest[k].state == Invalid <==> k >= p)
            && (p < |rest| ==> max > 0 && inflight - 1 == max - 1)
            && (i < inflight && p < |rest| ==> rest[p] == items[inflight])
  {
    var rest := Removed(items, i);
    assert forall k | 0 <= k < |rest| :: rest[k] == items[if k < i then k else k + 1];
  }

  lemma ListsAt(heap: Heap, outHead: Option<nat>, outs: seq<nat>, items: seq<Item>, inHead: Option<nat>, ins: seq<nat>,
                i: nat)
    requires Lists(heap, outHead, outs, items, inHead, ins)
    ensures |items| == |outs| && outHead == Head(outs) && inHead == Head(ins)
    ensures i < |outs| ==> outs[i] in heap && heap[outs[i]].next == Next(outs, i) && Shows(items[i], heap[outs[i]])
    ensures i < |ins| ==>
              ins[i] in heap && heap[ins[i]].next == Next(ins, i) && heap[ins[i]].qos == 2
              && heap[ins[i]].state == WaitForPubrel
  {
  }

  /** A message newly allocated is in neither list. */
  lemma Allocated(heap: Heap, outHead: Option<nat>, outs: seq<nat>, items: seq<Item>, inHead: Option<nat>,
                  ins: seq<nat>, x: nat, m: Message)
    requires Lists(heap, outHead, outs, items, inHead, ins) && x !in heap
    ensures x !in outs && x !in ins && Lists(heap[x := m], outHead, outs, items, inHead, ins)
  {
    LinkedApart(heap, heap[x := m], outHead, outs);
    LinkedApart(heap, heap[x := m], inHead, ins);
  }

  lemma ListsTails(heap: Heap, outHead: Option<nat>, outs: seq<nat>, items: seq<Item>, inHead: Option<nat>,
                   ins: seq<nat>)
    requires Lists(heap, outHead, outs, items, inHead, ins)
    ensures outs != [] ==> outs[|outs| - 1] in heap && outHead.Some?
    ensures ins != [] ==> ins[|ins| - 1] in heap && inHead.Some?
    ensures outs == [] ==> outHead.None?
    ensures ins == [] ==> inHead.None?
  {
  }

  /**
    With one place in flight, the second of two messages waits. An acknowledgement of it, though it was never sent,
    gives the place of the first one back, which is still in flight: the next message will be sent beyond the limit.
  */
  method UnsentAcknowledged(now: int) returns (c: Client)
    ensures fresh(c) && c.max == 1 && c.AllLists() && !c.Valid()
    ensures c.inflight == 0 && c.items == [Item(0, 1, 1, WaitForPuback)]
  {
    hide Lists, Sound;
    c := new Client(1);
    TopicA();
    NothingInFlight(c);
    var first := c.PublishMessage("a", 1, 1, now);
    OneInFlight(c);
    var second := c.PublishMessage("a", 1, 1, now);
    assert c.items[1].mid == 2;
    OneInFlight(c);
    var found, rc, i := c.RemoveOut(2, false);
    assert Removed([Item(0, 1, 1, WaitForPuback), Item(1, 2, 1, Invalid)], 1) == [Item(0, 1, 1, WaitForPuback)];
  }

  lemma TopicA()
    ensures ValidTopic("a") && |"a"| == 1
  {
  }

  lemma NothingInFlight(c: Client)
    requires c.Valid() && c.items == []
    ensures c.inflight == 0
  {
  }

  lemma OneInFlight(c: Client)
    requires c.Valid() && c.items != [] && c.max == 1
    ensures c.inflight == 1
  {
  }

  /**
    A reconnect while something is coming in and nothing is going out: the tail of the empty out-queue then names a
    message of the in-queue, behind which the next message to go out would be linked.
  */
  method TailCarriedOver(max: nat, mid: nat, now: int) returns (c: Client)
    ensures fresh(c) && c.ValidButTail() && !c.Valid()
    ensures c.outs == [] && c.outMessages == None && c.outLast.Some? && c.outLast == c.inLast
  {
    hide Lists, Sound;
    c := new Client(max);
    c.ReceivePublish(mid, now);
    c.ReconnectReset();
    ListsAt(c.heap, c.outMessages, c.outs, c.items, c.inMessages, c.ins, 0);
  }
}
