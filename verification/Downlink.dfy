/** The downlink scheduler of the LoRa gateway daemon: messages that wait for their nodes, retries and invitations. */
module Downlink {
  const CLASS_A := 0
  const CLASS_C := 2
  const MAX_PENDING_NODES := 1000
  const RETRY_TIMEOUT := 35
  const INVITE_TIMEOUT := 45
  const NUM_RETRIES := 5
  const NUM_RETRIES_INV := 5
  const NUM_RETRIES_BEFORE_INVITE := 2

  /** What the daemon knows about a node, or an unused place of the pool. */
  datatype Slot = Slot(free: bool, nodeid: nat, nodeclass: nat, fifo: seq<string>, lastMsg: int, lastInv: int,
                       invited: bool, canSend: bool, retries: nat, pending: nat)

  /** What is written to the gate. */
  datatype Command = Frame(text: string) | Invite(nodeid: nat) | HasPending(nodeid: nat, count: nat)

  datatype Action = Idle | Sends(text: string) | Invites | GivesUp

  // ----- the worker, for one node -----

  /** What the worker does for a node at time `now`. */
  function ActionAt(s: Slot, now: int): Action {
    if s.fifo == [] then Idle
    else if s.nodeclass == CLASS_A && !s.canSend then Idle
    else if s.nodeclass == CLASS_C && s.invited then
      if s.retries > NUM_RETRIES_INV then GivesUp
      else if now - s.lastInv > s.retries * INVITE_TIMEOUT then Invites
      else Idle
    else if now - s.lastMsg > RETRY_TIMEOUT then
      if s.retries > NUM_RETRIES then GivesUp else Sends(s.fifo[0])
    else Idle
  }

  /** What the node's slot is like after it. */
  function After(s: Slot, now: int): Slot {
    match ActionAt(s, now)
    case Idle => s
    case GivesUp => s.(retries := 0, fifo := if s.fifo == [] then [] else s.fifo[1..])
    case Invites => s.(retries := s.retries + 1, lastInv := now)
    case Sends(_) =>
      var invites := s.nodeclass == CLASS_C && s.retries + 1 == NUM_RETRIES_BEFORE_INVITE;
      s.(retries := if invites then 1 else s.retries + 1, lastInv := if invites then now else s.lastInv,
         invited := invites || s.invited, canSend := false, lastMsg := now)
  }

  function CommandsOf(s: Slot, now: int): seq<Command> {
    match ActionAt(s, now)
    case Sends(text) => [Frame(text)]
    case Invites => [Invite(s.nodeid)]
    case _ => []
  }

  // ----- every message gets a bounded number of attempts -----

  /**
    The queue length first, then whether the node is yet to be invited, then the attempts that are left, as one number.
  */
  function Rank(s: Slot): nat
    requires s.retries <= 6
  {
    14 * |s.fifo| + (if s.invited then 0 else 7) + (6 - s.retries)
  }

  /**
    Each action of the worker moves the node on: the rank falls, and messages leave in the order in which they came.
  */
  lemma ActionsProgress(s: Slot, now: int)
    requires s.retries <= 6
    ensures var s' := After(s, now);
            && s'.retries <= 6 && s'.nodeclass == s.nodeclass && s'.nodeid == s.nodeid && s'.free == s.free
            && (if ActionAt(s, now) == Idle then s' == s else Rank(s') < Rank(s))
            && (ActionAt(s, now) == GivesUp ==> s.fifo != [] && s'.fifo == s.fifo[1..])
            && (ActionAt(s, now) != GivesUp ==> s'.fifo == s.fifo)
            && (ActionAt(s, now).Sends? ==> s.fifo != [] && ActionAt(s, now).text == s.fifo[0])
  {
  }

  /** Passes of the worker at some times, with no new messages and no replies in between. */
  function Passes(s: Slot, times: seq<int>): Slot {
    if times == [] then s else After(Passes(s, times[..|times| - 1]), times[|times| - 1])
  }

  function Actions(s: Slot, times: seq<int>): nat {
    if times == [] then 0
    else
      var before := times[..|times| - 1];
      Actions(s, before) + if ActionAt(Passes(s, before), times[|times| - 1]) == Idle then 0 else 1
  }

  /** However often the worker looks, it acts at most as often as the rank allows, and keeps the order of the queue. */
  lemma {:induction false} ActionsBounded(s: Slot, times: seq<int>)
    requires s.retries <= 6
    ensures Passes(s, times).retries <= 6 && Passes(s, times).nodeclass == s.nodeclass
    ensures Actions(s, times) + Rank(Passes(s, times)) <= Rank(s)
    ensures |Passes(s, times).fifo| <= |s.fifo| && Passes(s, times).fifo == s.fifo[|s.fifo| - |Passes(s, times).fifo|..]
  {
    if times != [] {
      var before := times[..|times| - 1];
      ActionsBounded(s, before);
      ActionsProgress(Passes(s, before), times[|times| - 1]);
    }
  }

  /** No message is attempted, with the invitations for it, more than thirteen times before it leaves the queue. */
  lemma AttemptsBounded(s: Slot, times: seq<int>)
    requires s.retries <= 6 && |Passes(s, times).fifo| == |s.fifo|
    ensures Actions(s, times) <= 13
  {
    ActionsBounded(s, times);
  }

  /** When a node was last served, at the latest. */
  function Latest(s: Slot, times: seq<int>): int {
    if times != [] then times[|times| - 1] else if s.lastMsg >= s.lastInv then s.lastMsg else s.lastInv
  }

  /** Each pass comes later than the one before, and than the node was last served, by more than any timeout. */
  predicate Spaced(s: Slot, times: seq<int>) {
    times == [] ||
    (Spaced(s, times[..|times| - 1])
     && times[|times| - 1] - Latest(s, times[..|times| - 1]) > NUM_RETRIES_INV * INVITE_TIMEOUT)
  }

  /** Every well spaced pass over a node with a message does something. */
  lemma {:induction false} SpacedPasses(s: Slot, times: seq<int>)
    requires s.retries <= 6 && s.nodeclass != CLASS_A && Spaced(s, times)
    ensures Passes(s, times).lastMsg <= Latest(s, times) && Passes(s, times).lastInv <= Latest(s, times)
    ensures Passes(s, times).fifo != [] ==> Actions(s, times) == |times|
  {
    if times != [] {
      var before, now := times[..|times| - 1], times[|times| - 1];
      SpacedPasses(s, before);
      ActionsBounded(s, before);
      ActionsProgress(Passes(s, before), now);
    }
  }

  /**
    For a node that is not of class A, fourteen well spaced passes for each message empty the queue, whatever becomes of
    the messages.
  */
  lemma QueueDrains(s: Slot, times: seq<int>)
    requires s.retries <= 6 && s.nodeclass != CLASS_A && Spaced(s, times) && |times| >= 14 * |s.fifo|
    ensures Passes(s, times).fifo == []
  {
    SpacedPasses(s, times);
    ActionsBounded(s, times);
  }

  /** A class A node that did not ask for anything is sent nothing. */
  lemma {:induction false} OnlyOnRequest(s: Slot, times: seq<int>)
    requires s.retries <= 6 && s.nodeclass == CLASS_A && !s.canSend
    ensures Passes(s, times) == s && Actions(s, times) == 0
  {
    if times != [] {
      OnlyOnRequest(s, times[..|times| - 1]);
    }
  }

  // ----- class A nodes -----

  /** The slot of a node after it has asked for its next message. */
  function Requested(s: Slot): Slot {
    if s.nodeclass == CLASS_A && s.pending > 0 then s.(canSend := true, lastMsg := 0) else s
  }

  /** The slot of a node after it has acknowledged its first message. */
  function Acked(s: Slot): Slot {
    s.(invited := false, fifo := if s.fifo == [] then [] else s.fifo[1..], pending := if s.pending > 0
       then s.pending - 1 else 0, retries := 0)
  }

  /** The slot of a node after a message for it has come in. */
  function Queued(s: Slot, frame: string): Slot {
    s.(fifo := s.fifo + [frame], pending := if s.nodeclass == CLASS_A then s.pending + 1 else s.pending)
  }

  /** What happens to a node that the daemon knows. */
  datatype Happening = Pass(now: int) | Request | Ack | Message(frame: string)

  function SlotAfter(s: Slot, h: Happening): Slot {
    match h
    case Pass(now) => After(s, now)
    case Request => Requested(s)
    case Ack => Acked(s)
    case Message(frame) => Queued(s, frame)
  }

  function SlotAfterAll(s: Slot, hs: seq<Happening>): Slot {
    if hs == [] then s else SlotAfter(SlotAfterAll(s, hs[..|hs| - 1]), hs[|hs| - 1])
  }

  function Requests(hs: seq<Happening>): nat {
    if hs == [] then 0 else Requests(hs[..|hs| - 1]) + if hs[|hs| - 1].Request? then 1 else 0
  }

  /** How many messages the node has been sent. */
  function Sendings(s: Slot, hs: seq<Happening>): nat {
    if hs == [] then 0
    else
      var before, h := hs[..|hs| - 1], hs[|hs| - 1];
      Sendings(s, before) + if h.Pass? && ActionAt(SlotAfterAll(s, before), h.now).Sends? then 1 else 0
  }

  /** Whatever happens, a class A node is sent one message at most for each of its requests. */
  lemma {:induction false} OnePerRequest(s: Slot, hs: seq<Happening>)
    requires s.nodeclass == CLASS_A && !s.canSend
    ensures SlotAfterAll(s, hs).nodeclass == CLASS_A
    ensures Sendings(s, hs) + (if SlotAfterAll(s, hs).canSend then 1 else 0) <= Requests(hs)
  {
    if hs != [] {
      OnePerRequest(s, hs[..|hs| - 1]);
    }
  }

  // ----- no message is given up too soon -----

  /** What has been done for the first message of the node, since it is the first one. */
  function Since(s: Slot, hs: seq<Happening>): seq<Action> {
    if hs == [] then []
    else
      var before, h := hs[..|hs| - 1], hs[|hs| - 1];
      if h.Ack? then []
      else if !h.Pass? then Since(s, before)
      else
        match ActionAt(SlotAfterAll(s, before), h.now)
        case Idle => Since(s, before)
        case GivesUp => []
        case a => Since(s, before) + [a]
  }

  /** All of it was to send this message, or to invite a node of class C. */
  predicate ForFirst(s: Slot, tried: seq<Action>) {
    tried == []
    || (s.fifo != [] && forall k | 0 <= k < |tried| ::
          tried[k] == Sends(s.fifo[0]) || (tried[k] == Invites && s.nodeclass == CLASS_C))
  }

  lemma FirstStays(s: Slot, h: Happening, tried: seq<Action>)
    requires ForFirst(s, tried)
    ensures h.Message? || h.Request? ==> ForFirst(SlotAfter(s, h), tried)
    ensures h.Pass? && ActionAt(s, h.now) == Idle ==> ForFirst(SlotAfter(s, h), tried)
    ensures h.Pass? && ActionAt(s, h.now) != Idle && ActionAt(s, h.now) != GivesUp ==>
              ForFirst(SlotAfter(s, h), tried + [ActionAt(s, h.now)])
  {
  }

  /** Whatever happens, a message is given up only after six attempts for it. */
  lemma {:induction false} GivenUpAfter(s: Slot, hs: seq<Happening>, now: int)
    requires s.retries == 0
    ensures var t, tried := SlotAfterAll(s, hs), Since(s, hs);
            && t.nodeclass == s.nodeclass && t.retries <= |tried| && ForFirst(t, tried)
            && (ActionAt(t, now) == GivesUp ==> |tried| >= 6)
  {
    if hs != [] {
      hide ForFirst;
      var before, h := hs[..|hs| - 1], hs[|hs| - 1];
      GivenUpAfter(s, before, if h.Pass? then h.now else now);
      FirstStays(SlotAfterAll(s, before), h, Since(s, before));
      NothingTried(SlotAfterAll(s, hs));
    }
  }

  lemma NothingTried(s: Slot)
    ensures ForFirst(s, [])
  {
  }

  // ----- the pool of nodes -----

  class Gateway {
    const pool: array<Slot>
    var uart: seq<Command>

    predicate Valid()
      reads this, pool
    {
      && pool.Length == MAX_PENDING_NODES
      && (forall i | 0 <= i < pool.Length :: pool[i].retries <= 6)
      && (forall i, j | 0 <= i < j < pool.Length && !pool[i].free && !pool[j].free :: pool[i].nodeid != pool[j].nodeid)
    }

    /** `init_pending`. */
    constructor ()
      ensures Valid() && uart == [] && fresh(pool)
      ensures forall i | 0 <= i < pool.Length :: pool[i].free
    {
      var unused := Slot(true, 0, 0, [], 0, 0, false, false, 0, 0);
      pool := new Slot[MAX_PENDING_NODES](_ => unused);
      uart := [];
    }

    /** `pending_to_nodeid`. */
    method Find(nodeid: nat) returns (i: nat)
      requires Valid()
      ensures i <= pool.Length
      ensures i < pool.Length ==> !pool[i].free && pool[i].nodeid == nodeid
      ensures i == pool.Length ==> forall j | 0 <= j < pool.Length :: pool[j].free || pool[j].nodeid != nodeid
    {
      i := 0;
      while i < pool.Length
        invariant i <= pool.Length && forall j | 0 <= j < i :: pool[j].free || pool[j].nodeid != nodeid
      {
        if !pool[i].free {
          if pool[i].nodeid == nodeid {
            return;
          }
        }
        i := i + 1;
      }
    }

    /** `add_device`: a known node is updated, a new one gets the first free place. */
    method AddDevice(nodeid: nat, nodeclass: nat, wasJoined: bool) returns (i: nat)
      requires Valid()
      modifies pool
      ensures Valid() && i <= pool.Length
      ensures i == pool.Length ==>
                pool[..] == old(pool[..]) && forall j | 0 <= j < pool.Length ::
                  !pool[j].free && pool[j].nodeid != nodeid
      ensures i < pool.Length ==>
                pool[..] == old(pool[..])[i := pool[i]] && !pool[i].free && pool[i].nodeid == nodeid
                && pool[i].nodeclass == nodeclass
      ensures i < pool.Length && !old(pool[i].free) ==>
                pool[i] == old(pool[i]).(nodeclass := nodeclass, retries := 0,
                                         invited := if nodeclass == CLASS_C && wasJoined then false
                                             else old(pool[i].invited))
      ensures i < pool.Length && old(pool[i].free) ==>
                && pool[i] == Slot(false, nodeid, nodeclass, [], 0, 0, !wasJoined, false, 0, 0)
                && (forall j | 0 <= j < i :: !pool[j].free) && forall j | 0 <= j < pool.Length && j != i ::
                     pool[j].free || pool[j].nodeid != nodeid
    {
      i := Find(nodeid);
      if i < pool.Length {
        var e := pool[i];
        if nodeclass == CLASS_C && e.invited && wasJoined {
          e := e.(invited := false);
        }
        pool[i] := e.(nodeclass := nodeclass, retries := 0);
        return;
      }
      i := 0;
      while i < pool.Length
        invariant i <= pool.Length && forall j | 0 <= j < i :: !pool[j].free
      {
        if pool[i].free {
          pool[i] := Slot(false, nodeid, nodeclass, [], 0, 0, !wasJoined, false, 0, 0);
          return;
        }
        i := i + 1;
      }
    }

    /** `kick_device`: the place becomes free and its queue is emptied. */
    method KickDevice(nodeid: nat) returns (kicked: bool)
      requires Valid()
      modifies pool
      ensures Valid() && forall j | 0 <= j < pool.Length :: pool[j].free || pool[j].nodeid != nodeid
      ensures kicked <==> exists j :: 0 <= j < pool.Length && old(!pool[j].free && pool[j].nodeid == nodeid)
      ensures forall j | 0 <= j < pool.Length ::
                pool[j] == if old(!pool[j].free && pool[j].nodeid == nodeid)
                    then old(pool[j]).(free := true, fifo := []) else old(pool[j])
    {
      var i := Find(nodeid);
      if i == pool.Length {
        return false;
      }
      pool[i] := pool[i].(free := true);
      while pool[i].fifo != []
        invariant pool[..] == old(pool[..])[i := pool[i]]
                  && pool[i] == old(pool[i]).(free := true, fifo := pool[i].fifo)
        decreases |pool[i].fifo|
      {
        pool[i] := pool[i].(fifo := pool[i].fifo[1..]);
      }
      return true;
    }

    /**
      `message_to_mote`: an unknown node is added as one that has to be invited; class A nodes are told what waits for
      them.
    */
    method MessageToMote(nodeid: nat, frame: string) returns (queued: bool)
      requires Valid()
      modifies this`uart, pool
      ensures Valid()
      ensures queued ==>
                exists i :: 0 <= i < pool.Length && !pool[i].free && pool[i].nodeid == nodeid && pool[i].fifo != []
                                     && pool[i].fifo[|pool[i].fifo| - 1] == frame
                                     && (old(!pool[i].free && pool[i].nodeid == nodeid) ==>
                                           pool[i] == Queued(old(pool[i]), frame))
                                     && (old(pool[i].free) ==>
                                           pool[i].fifo == [frame] && pool[i].invited && pool[i].nodeclass == CLASS_C)
                                     && pool[..] == old(pool[..])[i := pool[i]]
                                     && uart == old(uart) + if pool[i].nodeclass == CLASS_A
                                        then [HasPending(nodeid, pool[i].pending)] else []
      ensures !queued ==> pool[..] == old(pool[..]) && uart == old(uart)
    {
      var i := Find(nodeid);
      if i == pool.Length {
        i := AddDevice(nodeid, CLASS_C, false);
      }
      if i == pool.Length {
        return false;
      }
      pool[i] := pool[i].(fifo := pool[i].fifo + [frame]);
      if pool[i].nodeclass == CLASS_A {
        pool[i] := pool[i].(pending := pool[i].pending + 1);
        uart := uart + [HasPending(nodeid, pool[i].pending)];
      }
      return true;
    }

    /** One round of `pending_worker` over the pool; the clock reads `now`. */
    method WorkerPass(now: int)
      requires Valid()
      modifies this`uart, pool
      ensures Valid()
      ensures forall j | 0 <= j < pool.Length ::
                pool[j] == if old(pool[j].free) then old(pool[j]) else After(old(pool[j]), now)
      ensures uart == old(uart) + Commands(old(pool[..]), now)
    {
      for i := 0 to pool.Length
        invariant pool.Length == MAX_PENDING_NODES
        invariant forall j | 0 <= j < pool.Length ::
                    pool[j] == if j >= i || old(pool[j].free) then old(pool[j]) else After(old(pool[j]), now)
        invariant uart == old(uart) + Commands(old(pool[..i]), now)
      {
        assert old(pool[..i + 1])[..i] == old(pool[..i]);
        if !pool[i].free {
          Serve(i, now);
        }
      }
      assert old(pool[..pool.Length]) == old(pool[..]);
      forall j | 0 <= j < pool.Length
          ensures pool[j].retries <= 6 && pool[j].nodeid == old(pool[j].nodeid) && pool[j].free == old(pool[j].free) {
        ActionsProgress(old(pool[j]), now);
      }
    }

    /** The body of the loop. */
    method Serve(i: nat, now: int)
      requires i < pool.Length
      modifies this`uart, pool
      ensures pool[..] == old(pool[..])[i := After(old(pool[i]), now)]
      ensures uart == old(uart) + CommandsOf(old(pool[i]), now)
    {
      var e := pool[i];
      if e.fifo == [] {
        return;
      }
      if e.nodeclass == CLASS_A && !e.canSend {
        return;
      }
      if e.nodeclass == CLASS_C && e.invited {
        if e.retries > NUM_RETRIES_INV {
          pool[i] := e.(retries := 0, fifo := e.fifo[1..]);
        } else if now - e.lastInv > e.retries * INVITE_TIMEOUT {
          uart := uart + [Invite(e.nodeid)];
          pool[i] := e.(retries := e.retries + 1, lastInv := now);
        }
        return;
      }
      if now - e.lastMsg > RETRY_TIMEOUT {
        if e.retries > NUM_RETRIES {
          pool[i] := e.(retries := 0, fifo := e.fifo[1..]);
          return;
        }
        e := e.(retries := e.retries + 1);
        uart := uart + [Frame(e.fifo[0])];
        if e.nodeclass == CLASS_C && e.retries == NUM_RETRIES_BEFORE_INVITE {
          e := e.(retries := 1, lastInv := now, invited := true);
        }
        pool[i] := e.(canSend := false, lastMsg := now);
      }
    }

    /** An ACK of a node: its first message has arrived. */
    method Ack(nodeid: nat)
      requires Valid()
      modifies pool
      ensures Valid()
      ensures forall j | 0 <= j < pool.Length ::
                var s := old(pool[j]);
                pool[j] == if s.free || s.nodeid != nodeid then s else Acked(s)
    {
      var i := Find(nodeid);
      if i == pool.Length {
        return;
      }
      var e := pool[i].(invited := false);
      if e.fifo != [] {
        e := e.(fifo := e.fifo[1..]);
      }
      if e.pending > 0 {
        e := e.(pending := e.pending - 1);
      }
      pool[i] := e.(retries := 0);
    }

    /** A node has joined; the gate is told what waits for it. */
    method Join(nodeid: nat, nodeclass: nat)
      requires Valid()
      modifies this`uart, pool
      ensures Valid()
      ensures forall j | 0 <= j < pool.Length && !pool[j].free && pool[j].nodeid == nodeid ::
                pool[j].nodeclass == nodeclass && pool[j].retries == 0 && (nodeclass == CLASS_C ==> !pool[j].invited)
                && uart == old(uart) + if pool[j].pending > 0 then [HasPending(nodeid, pool[j].pending)] else []
      ensures forall j | 0 <= j < pool.Length && (pool[j].free || pool[j].nodeid != nodeid) :: pool[j] == old(pool[j])
      ensures (forall j | 0 <= j < pool.Length :: pool[j].free || pool[j].nodeid != nodeid) ==>
                uart == old(uart) && forall j | 0 <= j < pool.Length :: !pool[j].free
    {
      var added := AddDevice(nodeid, nodeclass, true);
      var i := Find(nodeid);
      if i < pool.Length {
        if pool[i].pending > 0 {
          uart := uart + [HasPending(nodeid, pool[i].pending)];
        }
      }
    }

    /** A class A node asks for its next message, which goes out with the next pass of the worker. */
    method PendingRequest(nodeid: nat)
      requires Valid()
      modifies pool
      ensures Valid()
      ensures forall j | 0 <= j < pool.Length ::
                var s := old(pool[j]);
                pool[j] == if !s.free && s.nodeid == nodeid then Requested(s) else s
    {
      var i := Find(nodeid);
      if i < pool.Length {
        if pool[i].nodeclass == CLASS_A && pool[i].pending > 0 {
          pool[i] := pool[i].(canSend := true, lastMsg := 0);
        }
      }
    }
  }

  /** What a round over some slots writes to the gate. */
  function Commands(slots: seq<Slot>, now: int): seq<Command> {
    if slots == [] then []
    else
      var s := slots[|slots| - 1];
      Commands(slots[..|slots| - 1], now) + if s.free then [] else CommandsOf(s, now)
  }
}
