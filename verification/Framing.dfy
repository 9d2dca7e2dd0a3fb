/** Reading packets from a stream of bytes that arrive in pieces, over a socket or in WebSocket frames. */
module Framing {
  import opened Wrappers
  import opened Wire

  // ----- one byte at a time -----

  /**
    Where in a packet the stream is; without a command the next byte is the command. `virgin` says that no packet has
    been handed on yet, when the broker accepts CONNECT only.
  */
  datatype Phase =
    | InLength(virgin: bool, command: Option<byte>, count: nat, value: nat)
    | InPayload(virgin: bool, command: Option<byte>, length: nat, got: bytes)
    | Broken

  datatype Fed = Fed(phase: Phase, packets: seq<Packet>)

  /** Between two packets. */
  function Idle(virgin: bool): Phase {
    InLength(virgin, None, 0, 0)
  }

  function Power128(n: nat): nat {
    if n == 0 then 1 else 128 * Power128(n - 1)
  }

  /** What a byte of the remaining length adds: its seven low bits, in their place. */
  function Digit(b: byte, place: nat): nat {
    b % 128 * place
  }

  function Feed(p: Phase, b: byte): Fed {
    if p.Broken? then Fed(Broken, [])
    else if p.command.None? then
      if p.virgin && b / 16 != 1 then Fed(Broken, []) else Fed(p.(command := Some(b)), [])
    else match p
      case InLength(virgin, command, count, value) =>
        if count == 4 then Fed(Broken, [])
        else
          var value' := value + Digit(b, Power128(count));
          if b >= 128 then Fed(InLength(virgin, command, count + 1, value'), [])
          else if value' == 0 then Fed(Idle(false), [Packet(command.value, [])])
          else Fed(InPayload(virgin, command, value', []), [])
      case InPayload(virgin, command, length, got) =>
        if |got| + 1 < length then Fed(InPayload(virgin, command, length, got + [b]), [])
        else Fed(Idle(false), [Packet(command.value, got + [b])])
      case Broken => Fed(Broken, [])
  }

  function FeedAll(p: Phase, s: bytes): Fed {
    if s == [] then Fed(p, [])
    else
      var before := FeedAll(p, s[..|s| - 1]);
      var last := Feed(before.phase, s[|s| - 1]);
      Fed(last.phase, before.packets + last.packets)
  }

  lemma {:induction false} FeedAppend(p: Phase, s: bytes, t: bytes)
    ensures var f := FeedAll(p, s); var g := FeedAll(f.phase, t);
            FeedAll(p, s + t) == Fed(g.phase, f.packets + g.packets)
  {
    hide Feed;
    if t == [] {
      assert s + t == s;
    } else {
      var n := |t| - 1;
      assert (s + t)[..|s + t| - 1] == s + t[..n];
      FeedAppend(p, s, t[..n]);
    }
  }

  lemma FeedOne(p: Phase, b: byte)
    ensures FeedAll(p, [b]) == Feed(p, b)
  {
    assert [b][..0] == [];
  }

  // ----- bytes that come in pieces -----

  /**
    When a reader goes on with a packet after a pause, it takes a command byte of 0 for one that has not been read yet.
  */
  function Resumed(p: Phase): Phase {
    if !p.Broken? && p.command == Some(0) then p.(command := None) else p
  }

  function FeedPieces(p: Phase, pieces: seq<bytes>): Fed {
    if pieces == [] then Fed(p, [])
    else
      var before := FeedPieces(p, pieces[..|pieces| - 1]);
      var last := FeedAll(Resumed(before.phase), pieces[|pieces| - 1]);
      Fed(last.phase, before.packets + last.packets)
  }

  function Concat(pieces: seq<bytes>): bytes {
    if pieces == [] then [] else Concat(pieces[..|pieces| - 1]) + pieces[|pieces| - 1]
  }

  predicate AtZero(p: Phase) {
    !p.Broken? && p.command == Some(0)
  }

  /** No command byte is 0. */
  ghost predicate ZeroFree(p: Phase, s: bytes) {
    forall i {:trigger s[..i]} | 0 <= i <= |s| :: !AtZero(FeedAll(p, s[..i]).phase)
  }

  /** Unless a command byte is 0, it does not matter how the bytes are cut into pieces. */
  lemma {:induction false} CutAnywhere(p: Phase, pieces: seq<bytes>)
    requires ZeroFree(p, Concat(pieces))
    ensures FeedPieces(p, pieces) == FeedAll(p, Concat(pieces))
  {
    hide FeedAll;
    if pieces == [] {
      NothingFed(p, [], 0);
      assert [][0..0] == Concat(pieces);
    } else {
      var n := |pieces| - 1;
      var all, front := Concat(pieces), Concat(pieces[..n]);
      forall i | 0 <= i <= |front| ensures !AtZero(FeedAll(p, front[..i]).phase) {
        assert all[..i] == front[..i];
      }
      CutAnywhere(p, pieces[..n]);
      assert front[..|front|] == front;
      FeedAppend(p, front, pieces[n]);
    }
  }

  /**
    The bytes 0, 48, 0 are one packet for a client if the first of them comes alone, and the beginning of another one if
    they come together.
  */
  lemma CutMatters()
    ensures FeedPieces(Idle(false), [[0], [48, 0]]) == Fed(Idle(false), [Packet(48, [])])
    ensures FeedPieces(Idle(false), [[0, 48, 0]]) == Fed(InPayload(false, Some(0), 48, [0]), [])
    ensures Concat([[0], [48, 0]]) == Concat([[0, 48, 0]])
  {
    hide Concat, FeedAll, FeedPieces;
    var p := Idle(false);
    var one: seq<bytes>, two: seq<bytes> := [[0, 48, 0]], [[0], [48, 0]];
    Pieces(p, [], [0, 48, 0]);
    Pieces(p, [], [0]);
    Pieces(p, [[0]], [48, 0]);
    assert [] + [[0, 48, 0]] == one && [] + [[0]] == [[0]] && [[0]] + [[48, 0]] == two;
    ThreeFed(p, 0, 48, 0);
    TwoFed(p, 48, 0);
    FeedOne(p, 0);
    assert [] + [0, 48, 0] == [0] + [48, 0] && [] + [0] == [0];
  }

  lemma Pieces(p: Phase, pieces: seq<bytes>, s: bytes)
    ensures Concat([]) == [] && FeedPieces(p, []) == Fed(p, []) && Concat(pieces + [s]) == Concat(pieces) + s
    ensures var before := FeedPieces(p, pieces); var last := FeedAll(Resumed(before.phase), s);
            FeedPieces(p, pieces + [s]) == Fed(last.phase, before.packets + last.packets)
  {
    assert (pieces + [s])[..|pieces|] == pieces;
  }

  lemma TwoFed(p: Phase, a: byte, b: byte)
    ensures var f := Feed(p, a); var g := Feed(f.phase, b);
            FeedAll(p, [a, b]) == Fed(g.phase, f.packets + g.packets)
  {
    hide Feed;
    FeedOne(p, a);
    assert [a, b][..1] == [a];
  }

  lemma ThreeFed(p: Phase, a: byte, b: byte, c: byte)
    ensures var f := Feed(p, a); var g := Feed(f.phase, b); var h := Feed(g.phase, c);
            FeedAll(p, [a, b, c]) == Fed(h.phase, f.packets + g.packets + h.packets)
  {
    hide Feed;
    TwoFed(p, a, b);
    assert [a, b, c][..2] == [a, b];
  }

  /** A command byte of 0 shows in the packets, or is still there in the end, or nothing works any more. */
  lemma {:induction false} ZeroShows(p: Phase, s: bytes)
    requires AtZero(p)
    ensures var f := FeedAll(p, s); AtZero(f.phase) || f.phase.Broken? || exists i ::
              0 <= i < |f.packets| && f.packets[i].command == 0
  {
    hide Digit, Power128;
    if s != [] {
      var n := |s| - 1;
      ZeroShows(p, s[..n]);
      var f := FeedAll(p, s[..n]);
      if AtZero(f.phase) && |FeedAll(p, s).packets| > |f.packets| {
        assert FeedAll(p, s).packets[|f.packets|].command == 0;
      } else if i :| 0 <= i < |f.packets| && f.packets[i].command == 0 {
        assert FeedAll(p, s).packets[i].command == 0;
      }
    }
  }

  /** So bytes that amount to packets with other commands can be cut anywhere. */
  lemma WholePacketsZeroFree(p: Phase, s: bytes)
    requires !FeedAll(p, s).phase.Broken? && !AtZero(FeedAll(p, s).phase)
             && forall i | 0 <= i < |FeedAll(p, s).packets| :: FeedAll(p, s).packets[i].command != 0
    ensures ZeroFree(p, s)
  {
    hide FeedAll;
    forall i | 0 <= i <= |s| ensures !AtZero(FeedAll(p, s[..i]).phase) {
      var f, g := FeedAll(p, s[..i]), FeedAll(FeedAll(p, s[..i]).phase, s[i..]);
      assert s[..i] + s[i..] == s;
      FeedAppend(p, s[..i], s[i..]);
      if AtZero(f.phase) {
        ZeroShows(f.phase, s[i..]);
        forall k | 0 <= k < |g.packets| ensures g.packets[k].command != 0 {
          assert FeedAll(p, s).packets[|f.packets| + k] == g.packets[k];
        }
      }
    }
  }

  // ----- what is sent is what is read -----

  lemma {:induction false} FeedLength(virgin: bool, command: byte, count: nat, value: nat, n: nat)
    requires count + |LengthBytes(n)| <= 4
    ensures var f := FeedAll(InLength(virgin, Some(command), count, value), LengthBytes(n));
            var value' := value + n * Power128(count);
            f == if value' == 0 then Fed(Idle(false), [Packet(command, [])])
                else Fed(InPayload(virgin, Some(command), value', []), [])
    decreases n
  {
    hide FeedAll, Power128;
    var p := InLength(virgin, Some(command), count, value);
    if n < 128 {
      FeedOne(p, n);
      DigitOf(n, n, Power128(count));
    } else {
      var b: byte := n % 128 + 128;
      FeedOne(p, b);
      DigitOf(n, b, Power128(count));
      hide Digit;
      var value' := value + (n % 128) * Power128(count);
      assert Feed(p, b) == Fed(InLength(virgin, Some(command), count + 1, value'), []);
      FeedAppend(p, [b], LengthBytes(n / 128));
      FeedLength(virgin, command, count + 1, value', n / 128);
      Digits(value, n, count);
    }
  }

  lemma DigitOf(n: nat, b: byte, place: nat)
    requires b == (if n < 128 then n else n % 128 + 128)
    ensures Digit(b, place) == (n % 128) * place
    ensures n < 128 ==> Digit(b, place) == n * place
  {
    assert b % 128 == n % 128;
  }

  lemma Digits(value: nat, n: nat, count: nat)
    ensures value + (n % 128) * Power128(count) + (n / 128) * Power128(count + 1) == value + n * Power128(count)
  {
    var p := Power128(count);
    calc {
      (n % 128) * p + (n / 128) * (128 * p);
      (n % 128) * p + (n / 128 * 128) * p;
      (n % 128 + n / 128 * 128) * p;
      n * p;
    }
  }

  lemma {:induction false} FeedPayload(virgin: bool, command: byte, length: nat, got: bytes, s: bytes)
    requires |got| < length && |got| + |s| <= length
    ensures FeedAll(InPayload(virgin, Some(command), length, got), s) ==
            if |got| + |s| < length then Fed(InPayload(virgin, Some(command), length, got + s), [])
                else Fed(Idle(false), [Packet(command, got + s)])
  {
    if s == [] {
      assert got + s == got;
    } else {
      var n := |s| - 1;
      FeedPayload(virgin, command, length, got, s[..n]);
      assert got + s == got + s[..n] + [s[n]];
    }
  }

  /** A packet that may be sent: of a length that can be encoded, and the first one to a broker is a CONNECT. */
  predicate Sendable(p: Packet, virgin: bool) {
    p.command != 0 && |p.payload| <= LARGEST && (virgin ==> p.command / 16 == 1)
  }

  lemma FeedPacket(virgin: bool, p: Packet)
    requires Sendable(p, virgin)
    ensures FeedAll(Idle(virgin), Encode(p)) == Fed(Idle(false), [p])
  {
    hide FeedAll, LengthBytes, Digit;
    var n := |p.payload|;
    LengthOfLength(n);
    FeedOne(Idle(virgin), p.command);
    FeedLength(virgin, p.command, 0, 0, n);
    assert n * Power128(0) == n;
    FeedAppend(Idle(virgin), [p.command], LengthBytes(n));
    FeedAppend(Idle(virgin), [p.command] + LengthBytes(n), p.payload);
    if n > 0 {
      FeedPayload(virgin, p.command, n, [], p.payload);
      assert [] + p.payload == p.payload;
    } else {
      NothingFed(Idle(false), p.payload, 0);
      assert p.payload[0..0] == p.payload;
    }
  }

  function EncodeAll(ps: seq<Packet>): bytes {
    if ps == [] then [] else EncodeAll(ps[..|ps| - 1]) + Encode(ps[|ps| - 1])
  }

  /** The packets that are read from a stream of packets are those that were sent. */
  lemma {:induction false} FeedPackets(virgin: bool, ps: seq<Packet>)
    requires forall i | 0 <= i < |ps| :: Sendable(ps[i], virgin && i == 0)
    ensures FeedAll(Idle(virgin), EncodeAll(ps)) == Fed(Idle(virgin && ps == []), ps)
  {
    hide Encode, Feed, FeedAll, Sendable;
    if ps == [] {
      NothingFed(Idle(virgin), [], 0);
      assert [][0..0] == EncodeAll(ps);
    } else {
      var n := |ps| - 1;
      assert Sendable(ps[n], virgin && n == 0);
      FeedPackets(virgin, ps[..n]);
      FeedAppend(Idle(virgin), EncodeAll(ps[..n]), Encode(ps[n]));
      FeedPacket(virgin && n == 0, ps[n]);
      assert ps[..n] + [ps[n]] == ps;
    }
  }

  /** However the stream is cut. */
  lemma FeedPacketsInPieces(virgin: bool, ps: seq<Packet>, pieces: seq<bytes>)
    requires (forall i | 0 <= i < |ps| :: Sendable(ps[i], virgin && i == 0)) && Concat(pieces) == EncodeAll(ps)
    ensures FeedPieces(Idle(virgin), pieces) == Fed(Idle(virgin && ps == []), ps)
  {
    hide EncodeAll, Concat, FeedAll, FeedPieces;
    FeedPackets(virgin, ps);
    WholePacketsZeroFree(Idle(virgin), EncodeAll(ps));
    CutAnywhere(Idle(virgin), pieces);
  }

  // ----- the readers -----

  /**
    What a read of a socket finds: bytes, or none yet, or the end of the connection, or that it was reset, or another
    error.
  */
  datatype Turn = Arrives(count: nat) | WouldBlock | Ends | Resets | Fails

  /** How a read without bytes is reported. Inside a payload the end of the connection is not told from other errors. */
  function Reported(fault: Turn, inPayload: bool): nat {
    match fault
    case Ends => if inPayload then 14 else 7
    case Resets => 7
    case Fails => 14
    case _ => 0
  }

  function Arriving(schedule: seq<Turn>, t: nat): nat {
    if t < |schedule| && schedule[t].Arrives? then schedule[t].count else 0
  }

  /** How many of the first `t` turns bring bytes. */
  function Live(schedule: seq<Turn>, t: nat): nat {
    if t == 0 then 0 else Live(schedule, t - 1) + if Arriving(schedule, t - 1) > 0 then 1 else 0
  }

  /** How many bytes they bring at most. */
  function Total(schedule: seq<Turn>, t: nat): nat {
    if t == 0 then 0 else Total(schedule, t - 1) + Arriving(schedule, t - 1)
  }

  /**
    Reads from one place and turn to another: all of them brought something, except the last one if the socket is found
    to be `dry`.
  */
  ghost predicate Moved(schedule: seq<Turn>, size: nat, at: nat, turn: nat, at': nat, turn': nat, dry: bool) {
    && at <= at' <= size && turn <= turn'
    && (dry ==> turn < turn' && (Arriving(schedule, turn' - 1) == 0 || at' == size))
    && (at' == size || Live(schedule, turn') - Live(schedule, turn) <= at' - at)
    && at' - at <= Total(schedule, turn') - Total(schedule, turn)
    && forall t | turn <= t < turn' - (if dry then 1 else 0) :: Arriving(schedule, t) > 0
  }

  lemma MovedOn(schedule: seq<Turn>, size: nat, at0: nat, turn0: nat, at1: nat, turn1: nat, at2: nat, turn2: nat,
                dry: bool)
    requires Moved(schedule, size, at0, turn0, at1, turn1, false) && Moved(schedule, size, at1, turn1, at2, turn2, dry)
    ensures Moved(schedule, size, at0, turn0, at2, turn2, dry)
  {
  }

  lemma NotMoved(schedule: seq<Turn>, size: nat, at: nat, turn: nat)
    requires at <= size
    ensures Moved(schedule, size, at, turn, at, turn, false)
  {
  }

  function Least(a: nat, b: nat, c: nat): nat {
    if a <= b && a <= c then a else if b <= c then b else c
  }

  class Socket {
    const stream: bytes
    const schedule: seq<Turn>
    var at: nat
    var turn: nat
    /** Why the last read has brought nothing. */
    var fault: Turn

    constructor (stream: bytes, schedule: seq<Turn>)
      ensures this.stream == stream && this.schedule == schedule && at == 0 && turn == 0
    {
      this.stream, this.schedule, at, turn, fault := stream, schedule, 0, 0, WouldBlock;
    }

    /** `_mosquitto_net_read`. */
    method Read(count: nat) returns (r: bytes)
      requires at <= |stream| && count > 0
      modifies this
      ensures at <= |stream| && |r| <= count && at == old(at) + |r| && r == stream[old(at)..at]
      ensures turn == old(turn) + 1 && Moved(schedule, |stream|, old(at), old(turn), at, turn, r == [])
      ensures r == [] ==>
                fault == if old(turn) < |schedule| && !schedule[old(turn)].Arrives? then schedule[old(turn)]
                else WouldBlock
    {
      var now := if turn < |schedule| then schedule[turn] else WouldBlock;
      fault := if now.Arrives? then WouldBlock else now;
      var k := Least(Arriving(schedule, turn), count, |stream| - at);
      turn := turn + 1;
      r := stream[at..at + k];
      at := at + k;
    }
  }

  /** The byte that stands for a command in the fields of a reader. */
  function CommandByte(command: Option<byte>): byte {
    if command.Some? then command.value else 0
  }

  predicate AllFine(packets: seq<Packet>, verdict: Packet -> nat) {
    forall i | 0 <= i < |packets| :: verdict(packets[i]) == 0
  }

  /** The incoming packet of a connection, read as far as it has arrived, and the packets handed on before. */
  class Reader {
    /** The result of handling a packet. */
    const verdict: Packet -> nat
    var command: byte
    var remainingCount: int
    var remainingLength: nat
    var remainingMult: nat
    var payload: array<byte>
    var pos: nat
    var toProcess: nat
    /** The connection is to a broker and has not sent its CONNECT yet. */
    var virgin: bool
    var broken: bool
    var handled: seq<Packet>

    /** The fields say where in a packet the stream is. */
    ghost predicate Represents(p: Phase)
      reads this, payload
    {
      match p
      case InLength(v, c, count, value) =>
        && !broken && virgin == v && command == CommandByte(c) && count <= 4 && remainingCount == -(count as int)
        && remainingLength == value
        && remainingMult == Power128(count) && toProcess == 0 && pos == 0
      case InPayload(v, c, length, got) =>
        && !broken && virgin == v && command == CommandByte(c) && remainingCount > 0
        && remainingLength == length == payload.Length
        && pos == |got| && toProcess == length - |got| > 0 && payload[..pos] == got
      case Broken => broken
    }

    /** All of a packet has been read. */
    ghost predicate Ready(f: Fed)
      reads this, payload
    {
      && toProcess == 0 && !broken && |f.packets| == 1 && f.phase == Idle(false) && command == f.packets[0].command
      && remainingLength == |f.packets[0].payload| && (remainingLength > 0 ==> payload[..] == f.packets[0].payload)
    }

    constructor (broker: bool, verdict: Packet -> nat)
      ensures Represents(Idle(broker)) && handled == [] && fresh(payload) && this.verdict == verdict
    {
      this.verdict := verdict;
      command, remainingCount, remainingLength, remainingMult, pos, toProcess := 0, 0, 0, 1, 0, 0;
      virgin, broken, handled := broker, false, [];
      payload := new byte[0];
    }

    /** A reader goes on after a pause: a command byte of 0 is as good as none. */
    lemma GoesOn(p: Phase)
      requires Represents(p) && !p.Broken?
      ensures Represents(Resumed(p)) && !Resumed(p).Broken? && (command == 0 <==> Resumed(p).command.None?)
      ensures remainingCount <= 0 <==> Resumed(p).InLength?
    {
    }

    lemma Fields(p: Phase)
      requires Represents(p) && !p.Broken?
      ensures (remainingCount <= 0 <==> p.InLength?) && (toProcess > 0 <==> p.InPayload?)
    {
    }

    /** The first byte of a packet; a broker takes no command before CONNECT. */
    method TakeCommand(b: byte, ghost p: Phase) returns (ok: bool)
      requires Represents(p) && command == 0 && !p.Broken? && p.command.None?
      modifies this`command, this`broken
      ensures Represents(Feed(p, b).phase) && Feed(p, b).packets == []
      ensures if ok then !Feed(p, b).phase.Broken? && Feed(p, b).phase.command == Some(b)
              && (Feed(p, b).phase.InLength? <==> p.InLength?)
              else Feed(p, b).phase.Broken?
    {
      command := b;
      if virgin && b / 16 != 1 {
        broken := true;
        return false;
      }
      return true;
    }

    /** One byte of the remaining length; with the last one the buffer is allocated. */
    method TakeLengthByte(b: byte, ghost p: Phase) returns (ok: bool, more: bool)
      requires Represents(p) && p.InLength? && p.command.Some?
      modifies this
      ensures handled == old(handled)
      ensures if toProcess > 0 then fresh(payload) else payload == old(payload)
      ensures ok <==> !Feed(p, b).phase.Broken?
      ensures !ok || more ==> Represents(Feed(p, b).phase) && Feed(p, b).packets == []
      ensures ok && more ==> Feed(p, b).phase.InLength? && Feed(p, b).phase.command.Some?
      ensures ok && !more && toProcess > 0 ==>
                Represents(Feed(p, b).phase) && Feed(p, b).packets == [] && Feed(p, b).phase.InPayload?
                    && Feed(p, b).phase.command.Some?
      ensures ok && !more && toProcess == 0 ==> Ready(Feed(p, b))
    {
      hide Digit;
      ok, more := true, false;
      remainingCount := remainingCount - 1;
      if remainingCount < -4 {
        broken := true;
        return false, false;
      }
      remainingLength := remainingLength + Digit(b, remainingMult);
      remainingMult := remainingMult * 128;
      if b >= 128 {
        return true, true;
      }
      remainingCount := -remainingCount;
      if remainingLength > 0 {
        payload := new byte[remainingLength];
        toProcess := remainingLength;
      }
    }

    /** Some bytes of the payload. */
    method TakePayload(s: bytes, ghost p: Phase)
      requires Represents(p) && 0 < |s| <= toProcess && p.InPayload? && p.command.Some?
      modifies this`pos, this`toProcess, payload
      ensures toProcess == old(toProcess) - |s|
      ensures toProcess > 0 ==> Represents(FeedAll(p, s).phase) && FeedAll(p, s).packets == []
                                && FeedAll(p, s).phase.InPayload? && FeedAll(p, s).phase.command.Some?
      ensures toProcess == 0 ==> Ready(FeedAll(p, s))
    {
      FeedPayload(p.virgin, p.command.value, p.length, p.got, s);
      forall i | 0 <= i < |s| {
        payload[pos + i] := s[i];
      }
      pos := pos + |s|;
      toProcess := toProcess - |s|;
      assert payload[..pos] == p.got + s;
    }

    /** The packet is handed on, and everything is reset. */
    method Finish(ghost f: Fed) returns (rc: nat)
      requires Ready(f)
      modifies this
      ensures |f.packets| == 1 && f.phase == Idle(false) && rc == verdict(f.packets[0])
      ensures Represents(f.phase) && handled == old(handled) + f.packets && payload == old(payload)
    {
      var packet := Packet(command, if remainingLength > 0 then payload[..] else []);
      assert packet == f.packets[0];
      handled := handled + [packet];
      rc := verdict(packet);
      command, remainingCount, remainingMult, remainingLength, toProcess, pos := 0, 0, 1, 0, 0, 0;
      virgin := false;
    }

    /**
      `_mosquitto_packet_read`: read on where the last call stopped, and hand a packet on when it is complete. Whatever
      the socket yields and whenever, what is handed on is what the bytes read so far amount to. A call ends without a
      packet or an error only when the socket has nothing more to give.
    */
    method PacketRead(net: Socket, ghost p: Phase) returns (rc: nat)
      requires Represents(p) && !p.Broken? && net.at <= |net.stream|
      modifies this, payload, net
      ensures old(net.at) <= net.at <= |net.stream| && (payload == old(payload) || fresh(payload))
      ensures var f := FeedAll(Resumed(p), net.stream[old(net.at)..net.at]);
              && Represents(f.phase) && handled == old(handled) + f.packets && |f.packets| <= 1
              && rc == (if f.phase.Broken? then 2 else if f.packets != [] then verdict(f.packets[0])
                        else Reported(net.fault, f.phase.InPayload? && f.phase.command.Some?))
              && Moved(net.schedule, |net.stream|, old(net.at), old(net.turn), net.at, net.turn, !f.phase.Broken?
                       && f.packets == [])
    {
      hide Feed, FeedAll, Power128, Moved, Resumed, Reported, Represents, Ready, Arriving;
      ghost var start, turn, p1 := net.at, net.turn, Resumed(p);
      ghost var q := p1;
      GoesOn(p);
      NothingFed(q, net.stream, start);
      NotMoved(net.schedule, |net.stream|, start, turn);
      if command == 0 {
        var r := net.Read(1);
        if |r| != 1 {
          return Reported(net.fault, false);
        }
        OneFedOn(p1, net.stream, start, start, q);
        assert r == [net.stream[start]];
        var ok := TakeCommand(r[0], q);
        q := Feed(q, r[0]).phase;
        if !ok {
          return 2;
        }
      }
      Fields(q);
      ghost var f := FeedAll(p1, net.stream[start..net.at]);
      ghost var middle, turn1 := net.at, net.turn;
      if remainingCount <= 0 {
        var go;
        go, rc, f := ReadLength(net, q);
        FedOn(p1, net.stream, start, middle, net.at, q);
        MovedOn(net.schedule, |net.stream|, start, turn, middle, turn1, net.at, net.turn, !go && !f.phase.Broken?);
        if !go {
          return rc;
        }
        q := f.phase;
      }
      if toProcess > 0 {
        var go;
        middle, turn1 := net.at, net.turn;
        go, f := ReadPayload(net, q);
        FedOn(p1, net.stream, start, middle, net.at, q);
        MovedOn(net.schedule, |net.stream|, start, turn, middle, turn1, net.at, net.turn, !go);
        if !go {
          return Reported(net.fault, true);
        }
      }
      rc := Finish(f);
    }

    /** The bytes of the remaining length, as far as they have arrived. */
    method ReadLength(net: Socket, ghost p: Phase) returns (go: bool, rc: nat, ghost f: Fed)
      requires Represents(p) && p.InLength? && p.command.Some? && net.at <= |net.stream|
      modifies this, net
      ensures old(net.at) <= net.at <= |net.stream| && f == FeedAll(p, net.stream[old(net.at)..net.at])
              && handled == old(handled)
      ensures if toProcess > 0 then fresh(payload) else payload == old(payload)
      ensures !go ==> Represents(f.phase) && f.packets == []
                      && if f.phase.Broken? then rc == 2 else f.phase.InLength? && rc == Reported(net.fault, false)
      ensures go && toProcess > 0 ==>
                Represents(f.phase) && f.packets == [] && f.phase.InPayload? && f.phase.command.Some?
      ensures go && toProcess == 0 ==> Ready(f)
      ensures Moved(net.schedule, |net.stream|, old(net.at), old(net.turn), net.at, net.turn, !go && !f.phase.Broken?)
    {
      hide Feed, FeedAll, Power128, Moved, Reported;
      ghost var start, turn, q := net.at, net.turn, p;
      NothingFed(p, net.stream, start);
      NotMoved(net.schedule, |net.stream|, start, turn);
      f := Fed(p, []);
      var more := true;
      while more
        invariant start <= net.at <= |net.stream| && f == FeedAll(p, net.stream[start..net.at])
                  && handled == old(handled)
        invariant if toProcess > 0 then fresh(payload) else payload == old(payload)
        invariant more ==> Represents(q) && f == Fed(q, []) && q.InLength? && q.command.Some? && toProcess == 0
        invariant !more && toProcess > 0 ==>
                    Represents(f.phase) && f.packets == [] && f.phase.InPayload? && f.phase.command.Some?
        invariant !more && toProcess == 0 ==> Ready(f)
        invariant Moved(net.schedule, |net.stream|, start, turn, net.at, net.turn, false) && !f.phase.Broken?
        decreases |net.stream| - net.at, more
      {
        ghost var i, turn1 := net.at, net.turn;
        var r := net.Read(1);
        MovedOn(net.schedule, |net.stream|, start, turn, i, turn1, net.at, net.turn, r == []);
        if |r| != 1 {
          return false, Reported(net.fault, false), f;
        }
        OneFedOn(p, net.stream, start, i, q);
        assert r == [net.stream[i]];
        var ok;
        ok, more := TakeLengthByte(r[0], q);
        f := Feed(q, r[0]);
        q := f.phase;
        if !ok {
          return false, 2, f;
        }
      }
      return true, 0, f;
    }

    /** The bytes of the payload, as far as they have arrived. */
    method ReadPayload(net: Socket, ghost p: Phase) returns (go: bool, ghost f: Fed)
      requires Represents(p) && p.InPayload? && p.command.Some? && net.at <= |net.stream|
      modifies this`pos, this`toProcess, payload, net
      ensures old(net.at) <= net.at <= |net.stream| && f == FeedAll(p, net.stream[old(net.at)..net.at])
      ensures !go ==> Represents(f.phase) && f.packets == [] && f.phase.InPayload? && f.phase.command.Some?
      ensures go ==> Ready(f)
      ensures Moved(net.schedule, |net.stream|, old(net.at), old(net.turn), net.at, net.turn, !go)
    {
      hide Feed, FeedAll, Power128, Moved;
      ghost var start, turn, q := net.at, net.turn, p;
      NothingFed(p, net.stream, start);
      NotMoved(net.schedule, |net.stream|, start, turn);
      f := Fed(p, []);
      while toProcess > 0
        invariant start <= net.at <= |net.stream| && f == FeedAll(p, net.stream[start..net.at])
        invariant toProcess > 0 ==> Represents(q) && f == Fed(q, []) && q.InPayload? && q.command.Some?
        invariant toProcess == 0 ==> Ready(f)
        invariant Moved(net.schedule, |net.stream|, start, turn, net.at, net.turn, false)
        decreases toProcess
      {
        ghost var i, turn1 := net.at, net.turn;
        var r := net.Read(toProcess);
        MovedOn(net.schedule, |net.stream|, start, turn, i, turn1, net.at, net.turn, r == []);
        if r == [] {
          return false, f;
        }
        FedOn(p, net.stream, start, i, net.at, q);
        TakePayload(r, q);
        f := FeedAll(q, r);
        q := f.phase;
      }
      return true, f;
    }

    /**
      The receive loop of the WebSocket callback on one frame. However the bytes are cut inside packets, what is handed
      on is what they amount to, up to the first packet that cannot be handled.
    */
    method Receive(buf: bytes, ghost p: Phase) returns (rc: int)
      requires Represents(p) && !p.Broken?
      modifies this, payload
      ensures payload == old(payload) || fresh(payload)
      ensures var f := FeedAll(Resumed(p), buf);
              && handled == old(handled) + UpToFailure(f.packets, verdict)
              && rc == (if f.phase.Broken? || !AllFine(f.packets, verdict) then -1 else 0)
              && (rc == 0 ==> Represents(f.phase))
    {
      hide Feed, FeedAll, Power128, Resumed, AllFine, UpToFailure;
      ghost var p1 := Resumed(p);
      ghost var q, packets := p1, [];
      GoesOn(p);
      NothingFed(q, buf, 0);
      FineSoFar(packets, verdict);
      var i := 0;
      while i < |buf|
        invariant i <= |buf| && FeedAll(p1, buf[0..i]) == Fed(q, packets) && Represents(q) && !q.Broken?
        invariant i < |buf| ==> (command == 0 <==> q.command.None?)
        invariant handled == old(handled) + packets && AllFine(packets, verdict)
        invariant payload == old(payload) || fresh(payload)
      {
        ghost var i0 := i;
        ghost var f;
        rc, i, f := PacketOfFrame(buf, i, q);
        FedFurther(p1, buf, 0, i0, i, q, packets);
        FailsHere(p1, buf, i, f.phase, packets, f.packets, verdict);
        q, packets := f.phase, packets + f.packets;
        if rc != 0 {
          return rc;
        }
      }
      assert buf[0..|buf|] == buf;
      FineSoFar(packets, verdict);
      return 0;
    }

    /** One turn of the loop: the frame is read on from `start` up to the end of a packet, or to its own end. */
    method PacketOfFrame(buf: bytes, start: nat, ghost p: Phase) returns (rc: int, i: nat, ghost f: Fed)
      requires Represents(p) && !p.Broken? && start < |buf| && (command == 0 <==> p.command.None?)
      modifies this, payload
      ensures start < i <= |buf| && f == FeedAll(p, buf[start..i])
      ensures Represents(f.phase) && (payload == old(payload) || fresh(payload))
      ensures handled == old(handled) + f.packets && |f.packets| <= 1
      ensures rc == if f.phase.Broken? || (f.packets != [] && verdict(f.packets[0]) != 0) then -1 else 0
      ensures f.packets == [] ==> f.phase.Broken? || i == |buf|
      ensures f.packets != [] ==> f.phase == Idle(false)
    {
      hide Feed, FeedAll, Power128, Represents, Ready;
      ghost var q := p;
      NothingFed(p, buf, start);
      i := start;
      f := Fed(p, []);
      if command == 0 {
        OneFedOn(p, buf, start, i, q);
        var ok := TakeCommand(buf[i], q);
        f := Feed(q, buf[i]);
        q := f.phase;
        i := i + 1;
        if !ok {
          return -1, i, f;
        }
      }
      Fields(q);
      if remainingCount <= 0 {
        ghost var middle := i;
        var go;
        go, rc, i, f := LengthOfFrame(buf, i, q);
        FedOn(p, buf, start, middle, i, q);
        q := f.phase;
        if !go {
          return rc, i, f;
        }
      }
      if toProcess > 0 {
        ghost var middle := i;
        var go;
        Fields(q);
        go, i, f := PayloadOfFrame(buf, i, q);
        FedOn(p, buf, start, middle, i, q);
        if !go {
          return 0, i, f;
        }
      }
      var bad := Finish(f);
      return if bad != 0 then -1 else 0, i, f;
    }

    method PayloadOfFrame(buf: bytes, start: nat, ghost p: Phase) returns (go: bool, i: nat, ghost f: Fed)
      requires Represents(p) && p.InPayload? && p.command.Some? && start <= |buf|
      modifies this`pos, this`toProcess, payload
      ensures start <= i <= |buf| && f == FeedAll(p, buf[start..i]) && (start < |buf| ==> i > start)
      ensures if go then Ready(f) else i == |buf| && Represents(f.phase) && f.packets == [] && !f.phase.Broken?
    {
      hide Feed, FeedAll, Power128;
      var count := if |buf| - start >= toProcess then toProcess else |buf| - start;
      go := count == toProcess;
      f := FeedAll(p, buf[start..start + count]);
      if count > 0 {
        TakePayload(buf[start..start + count], p);
      } else {
        NothingFed(p, buf, start);
      }
      i := start + count;
    }

    method LengthOfFrame(buf: bytes, start: nat, ghost p: Phase) returns (go: bool, rc: int, i: nat, ghost f: Fed)
      requires Represents(p) && p.InLength? && p.command.Some? && start <= |buf|
      modifies this
      ensures start <= i <= |buf| && f == FeedAll(p, buf[start..i]) && handled == old(handled)
      ensures if toProcess > 0 then fresh(payload) else payload == old(payload)
      ensures !go ==> Represents(f.phase) && f.packets == [] && (f.phase.Broken? || i == |buf|)
                      && rc == if f.phase.Broken? then -1 else 0
      ensures go && toProcess > 0 ==>
                Represents(f.phase) && f.packets == [] && f.phase.InPayload? && f.phase.command.Some?
      ensures go && toProcess == 0 ==> Ready(f)
      ensures (go ==> i > start) && (start < |buf| ==> i > start)
    {
      hide Feed, FeedAll, Power128;
      ghost var q := p;
      NothingFed(p, buf, start);
      f := Fed(p, []);
      i := start;
      var more := true;
      while more
        invariant start <= i <= |buf| && f == FeedAll(p, buf[start..i]) && handled == old(handled)
        invariant if toProcess > 0 then fresh(payload) else payload == old(payload)
        invariant more ==> Represents(q) && f == Fed(q, []) && q.InLength? && q.command.Some? && toProcess == 0
        invariant !more && toProcess > 0 ==>
                    Represents(f.phase) && f.packets == [] && f.phase.InPayload? && f.phase.command.Some?
        invariant !more && toProcess == 0 ==> Ready(f)
        invariant f.phase != Broken && (more || i > start)
        decreases |buf| - i, more
      {
        if i == |buf| {
          return false, 0, i, f;
        }
        OneFedOn(p, buf, start, i, q);
        var ok;
        ok, more := TakeLengthByte(buf[i], q);
        f := Feed(q, buf[i]);
        q := f.phase;
        i := i + 1;
        if !ok {
          return false, -1, i, f;
        }
      }
      return true, 0, i, f;
    }
  }

  /** The packets up to the first that cannot be handled. */
  function UpToFailure(packets: seq<Packet>, verdict: Packet -> nat): seq<Packet> {
    if packets == [] then [] else [packets[0]] + if verdict(packets[0]) != 0 then []
        else UpToFailure(packets[1..], verdict)
  }

  lemma {:induction false} FineSoFar(packets: seq<Packet>, verdict: Packet -> nat)
    ensures AllFine([], verdict) && (AllFine(packets, verdict) ==> UpToFailure(packets, verdict) == packets)
  {
    if AllFine(packets, verdict) && packets != [] {
      FineSoFar(packets[1..], verdict);
    }
  }

  lemma {:induction false} FailureStops(packets: seq<Packet>, bad: Packet, rest: seq<Packet>, verdict: Packet -> nat)
    requires AllFine(packets, verdict) && verdict(bad) != 0
    ensures UpToFailure(packets + [bad] + rest, verdict) == packets + [bad] && !AllFine(packets + [bad] + rest, verdict)
  {
    var all := packets + [bad] + rest;
    assert all[|packets|] == bad;
    if packets != [] {
      FailureStops(packets[1..], bad, rest, verdict);
      assert all[1..] == packets[1..] + [bad] + rest;
    }
  }

  /** What an error after `i` bytes of a frame means for the whole frame. */
  lemma FailsHere(p: Phase, buf: bytes, i: nat, q: Phase, packets: seq<Packet>, more: seq<Packet>,
                  verdict: Packet -> nat)
    requires i <= |buf| && FeedAll(p, buf[0..i]) == Fed(q, packets + more) && AllFine(packets, verdict) && |more| <= 1
    ensures q.Broken? && more == [] ==>
              FeedAll(p, buf) == Fed(Broken, packets) && UpToFailure(packets, verdict) == packets
    ensures more != [] && verdict(more[0]) != 0 ==>
              !AllFine(FeedAll(p, buf).packets, verdict) && UpToFailure(FeedAll(p, buf).packets, verdict) == packets
                  + more
    ensures more == [] || verdict(more[0]) == 0 ==> AllFine(packets + more, verdict)
  {
    hide FeedAll, UpToFailure;
    FedFurther(p, buf, 0, i, |buf|, q, packets + more);
    assert buf[0..|buf|] == buf && packets + [] == packets;
    if q.Broken? {
      FeedStuck(buf[i..|buf|]);
    }
    FineSoFar(packets, verdict);
    if more != [] && verdict(more[0]) != 0 {
      FailureStops(packets, more[0], FeedAll(q, buf[i..|buf|]).packets, verdict);
      assert more == [more[0]];
    }
  }

  /** The next byte of a stream. */
  lemma OneFed(p: Phase, stream: bytes, start: nat, i: nat, q: Phase, packets: seq<Packet>)
    requires start <= i < |stream| && FeedAll(p, stream[start..i]) == Fed(q, packets)
    ensures var f := Feed(q, stream[i]);
            FeedAll(p, stream[start..i + 1]) == Fed(f.phase, packets + f.packets)
  {
    assert stream[start..i + 1][..i - start] == stream[start..i];
  }

  /** The same where no packet has been complete before. */
  lemma OneFedOn(p: Phase, stream: bytes, start: nat, i: nat, q: Phase)
    requires start <= i < |stream| && FeedAll(p, stream[start..i]) == Fed(q, [])
    ensures FeedAll(p, stream[start..i + 1]) == Feed(q, stream[i])
  {
    hide FeedAll, Feed;
    OneFed(p, stream, start, i, q, []);
    assert [] + Feed(q, stream[i]).packets == Feed(q, stream[i]).packets;
  }

  lemma FedOn(p: Phase, stream: bytes, start: nat, i: nat, j: nat, q: Phase)
    requires start <= i <= j <= |stream| && FeedAll(p, stream[start..i]) == Fed(q, [])
    ensures FeedAll(p, stream[start..j]) == FeedAll(q, stream[i..j])
  {
    hide FeedAll;
    FedFurther(p, stream, start, i, j, q, []);
    assert [] + FeedAll(q, stream[i..j]).packets == FeedAll(q, stream[i..j]).packets;
  }

  lemma {:induction false} FeedStuck(s: bytes)
    ensures FeedAll(Broken, s) == Fed(Broken, [])
  {
    if s != [] { FeedStuck(s[..|s| - 1]); }
  }

  lemma NothingFed(p: Phase, stream: bytes, i: nat)
    requires i <= |stream|
    ensures FeedAll(p, stream[i..i]) == Fed(p, [])
  {
    assert stream[i..i] == [];
  }

  /** More bytes of a stream are fed. */
  lemma FedFurther(p: Phase, stream: bytes, start: nat, i: nat, j: nat, q: Phase, packets: seq<Packet>)
    requires start <= i <= j <= |stream| && FeedAll(p, stream[start..i]) == Fed(q, packets)
    ensures var f := FeedAll(q, stream[i..j]);
            FeedAll(p, stream[start..j]) == Fed(f.phase, packets + f.packets)
  {
    FeedAppend(p, stream[start..i], stream[i..j]);
    assert stream[start..i] + stream[i..j] == stream[start..j];
  }

  // ----- whole streams -----

  /**
    Calls on a socket, up to the first one that reports an error. What is handed on is what the bytes that were read
    amount to in the pieces in which they came, and in any pieces if no command byte is 0. Enough calls, when enough
    turns bring bytes, read it all.
  */
  method ReadStream(stream: bytes, schedule: seq<Turn>, broker: bool, verdict: Packet -> nat, calls: nat)
      returns (handled: seq<Packet>, read: nat, rc: nat, ghost pieces: seq<bytes>)
    ensures read <= |stream| && Concat(pieces) == stream[..read] && handled == FeedPieces(Idle(broker), pieces).packets
    ensures ZeroFree(Idle(broker), stream[..read]) ==> handled == FeedAll(Idle(broker), stream[..read]).packets
    ensures rc == 0 && calls >= |schedule| && Live(schedule, |schedule|) >= |stream| ==> read == |stream|
    ensures rc == 0 ==> AllFine(handled, verdict) && !FeedPieces(Idle(broker), pieces).phase.Broken?
    ensures rc != 0 ==> rc in {2, 7, 14} || (handled != [] && rc == verdict(handled[|handled| - 1]))
  {
    hide FeedAll, FeedPieces, Concat, Live, Moved, AllFine;
    var net := new Socket(stream, schedule);
    var reader := new Reader(broker, verdict);
    ghost var q := Idle(broker);
    pieces, rc := [], 0;
    NothingRead(q, schedule, stream, verdict);
    var i := 0;
    while i < calls && rc == 0
      invariant i <= calls && fresh(net) && fresh(reader) && fresh(reader.payload) && reader.verdict == verdict
      invariant net.stream == stream && net.schedule == schedule && net.at <= |stream|
      invariant FeedPieces(Idle(broker), pieces) == Fed(q, reader.handled) && Concat(pieces) == stream[..net.at]
      invariant rc == 0 ==> reader.Represents(q) && !q.Broken? && AllFine(reader.handled, verdict)
      invariant rc != 0 ==>
                  rc in {2, 7, 14} || (reader.handled != [] && rc == verdict(reader.handled[|reader.handled| - 1]))
      invariant rc == 0 ==> i <= net.turn && (net.at == |stream| || Live(schedule, net.turn) <= net.at)
    {
      ghost var at, turn, before := net.at, net.turn, reader.handled;
      rc := reader.PacketRead(net, q);
      PieceRead(Idle(broker), pieces, q, before, stream, at, net.at);
      ghost var f := FeedAll(Resumed(q), stream[at..net.at]);
      if !f.phase.Broken? {
        ReadOn(schedule, stream, at, turn, net.at, net.turn, Resumed(q));
      }
      MoreFine(before, f.packets, verdict);
      pieces := pieces + [stream[at..net.at]];
      q := f.phase;
      i := i + 1;
    }
    if net.turn >= |schedule| {
      LiveMore(schedule, net.turn);
    }
    if ZeroFree(Idle(broker), stream[..net.at]) {
      CutAnywhere(Idle(broker), pieces);
    }
    return reader.handled, net.at, rc, pieces;
  }

  lemma NothingRead(p: Phase, schedule: seq<Turn>, stream: bytes, verdict: Packet -> nat)
    ensures FeedPieces(p, []) == Fed(p, []) && Concat([]) == stream[..0] && Live(schedule, 0) == 0
            && AllFine([], verdict)
  {
  }

  lemma PieceRead(p: Phase, pieces: seq<bytes>, q: Phase, packets: seq<Packet>, stream: bytes, at: nat, at': nat)
    requires at <= at' <= |stream| && FeedPieces(p, pieces) == Fed(q, packets) && Concat(pieces) == stream[..at]
    ensures var f := FeedAll(Resumed(q), stream[at..at']);
            FeedPieces(p, pieces + [stream[at..at']]) == Fed(f.phase, packets + f.packets)
                && Concat(pieces + [stream[at..at']]) == stream[..at']
  {
    hide FeedAll, FeedPieces, Concat;
    Pieces(p, pieces, stream[at..at']);
    assert stream[..at] + stream[at..at'] == stream[..at'];
  }

  /** A call uses up a turn at least, and as many bytes as there were turns that brought some. */
  lemma ReadOn(schedule: seq<Turn>, stream: bytes, at: nat, turn: nat, at': nat, turn': nat, p: Phase)
    requires at <= at' <= |stream| && (at == |stream| || Live(schedule, turn) <= at)
    requires var f := FeedAll(p, stream[at..at']);
             !f.phase.Broken? && Moved(schedule, |stream|, at, turn, at', turn', !f.phase.Broken? && f.packets == [])
    ensures turn < turn' && (at' == |stream| || Live(schedule, turn') <= at')
  {
    if at' == at {
      NothingFed(p, stream, at);
    }
  }

  lemma MoreFine(before: seq<Packet>, more: seq<Packet>, verdict: Packet -> nat)
    requires AllFine(before, verdict) && |more| <= 1
    ensures more == [] || verdict(more[0]) == 0 ==> AllFine(before + more, verdict)
  {
  }

  lemma {:induction false} LiveMore(schedule: seq<Turn>, t: nat)
    requires t >= |schedule|
    ensures Live(schedule, t) == Live(schedule, |schedule|)
  {
    if t > |schedule| { LiveMore(schedule, t - 1); }
  }

  /**
    Where a call stops that only ends when the socket is dry: at the end of the stream, or at the first turn without
    bytes.
  */
  lemma StopsAt(schedule: seq<Turn>, size: nat, at: nat, turn: nat, at': nat, turn': nat, n: nat)
    requires Moved(schedule, size, at, turn, at', turn', true) && turn <= n && Arriving(schedule, n) == 0 && at
             + (n - turn) <= size
    requires forall t | turn <= t < n :: Arriving(schedule, t) == 1
    ensures at' == at + (n - turn) && (at' < size ==> turn' == n + 1)
  {
    Ones(schedule, turn, n, turn');
  }

  lemma {:induction false} Ones(schedule: seq<Turn>, turn: nat, n: nat, t: nat)
    requires turn <= n && Arriving(schedule, n) == 0 && (forall t | turn <= t < n :: Arriving(schedule, t) == 1)
             && turn <= t <= n + 1
    ensures Live(schedule, t) - Live(schedule, turn) == Total(schedule, t) - Total(schedule, turn) == if t <= n
            then t - turn else n - turn
  {
    if t > turn { Ones(schedule, turn, n, t - 1); }
  }

  /**
    A client reads the bytes 0, 48, 0. If the first of them comes alone, it is lost and the others are a packet; if all
    come together, they are the beginning of a longer one.
  */
  method TwoSchedules() returns (alone: seq<Packet>, together: seq<Packet>)
    ensures alone == [Packet(48, [])] && together == []
  {
    hide FeedAll, Moved, Digit, Power128, Feed;
    var stream: bytes, fine := [0, 48, 0], (p: Packet) => 0;
    ghost var p := Idle(false);
    ZeroFed(stream);

    var net := new Socket(stream, [Arrives(1), WouldBlock, Arrives(1), Arrives(1)]);
    var reader := new Reader(false, fine);
    var _ := reader.PacketRead(net, p);
    StopsAt(net.schedule, 3, 0, 0, net.at, net.turn, 1);
    ghost var q, turn := FeedAll(p, stream[0..1]).phase, net.turn;
    var _ := reader.PacketRead(net, q);
    if net.at < 3 {
      StopsAt(net.schedule, 3, 1, 2, net.at, net.turn, 4);
    }
    alone := reader.handled;

    net := new Socket(stream, [Arrives(1), Arrives(1), Arrives(1)]);
    reader := new Reader(false, fine);
    var _ := reader.PacketRead(net, p);
    StopsAt(net.schedule, 3, 0, 0, net.at, net.turn, 3);
    together := reader.handled;
  }

  lemma ZeroFed(s: bytes)
    requires s == [0, 48, 0]
    ensures var p := Idle(false);
            && Resumed(p) == p && Resumed(FeedAll(p, s[0..1]).phase) == p
            && (forall i | 0 <= i <= 3 :: FeedAll(p, s[0..i]).packets == [] && !FeedAll(p, s[0..i]).phase.Broken?)
            && (forall i | 1 <= i <= 2 :: FeedAll(p, s[1..i]).packets == [] && !FeedAll(p, s[1..i]).phase.Broken?)
            && FeedAll(p, s[1..3]) == Fed(p, [Packet(48, [])])
  {
    hide FeedAll;
    var p := Idle(false);
    assert s[0..0] == [] && s[0..1] == [0] && s[0..2] == [0, 48] && s[0..3] == [0, 48, 0];
    assert s[1..1] == [] && s[1..2] == [48] && s[1..3] == [48, 0];
    NothingFed(p, s, 0);
    FeedOne(p, 0);
    TwoFed(p, 0, 48);
    ThreeFed(p, 0, 48, 0);
    FeedOne(p, 48);
    TwoFed(p, 48, 0);
  }

  /** The WebSocket loop on any number of frames, up to the first error. */
  method ReceiveFrames(frames: seq<bytes>, verdict: Packet -> nat) returns (handled: seq<Packet>)
    ensures handled == UpToFailure(FeedPieces(Idle(true), frames).packets, verdict)
    ensures ZeroFree(Idle(true), Concat(frames)) ==>
              handled == UpToFailure(FeedAll(Idle(true), Concat(frames)).packets, verdict)
  {
    hide FeedAll, FeedPieces, Concat, AllFine, UpToFailure, ZeroFree;
    var reader := new Reader(true, verdict);
    ghost var q := Idle(true);
    NothingRead(q, [], [], verdict);
    assert frames[..0] == [];
    for i := 0 to |frames|
      invariant fresh(reader) && fresh(reader.payload) && reader.verdict == verdict
      invariant FeedPieces(Idle(true), frames[..i]) == Fed(q, reader.handled) && reader.Represents(q) && !q.Broken?
      invariant AllFine(reader.handled, verdict)
    {
      ghost var before := reader.handled;
      var rc := reader.Receive(frames[i], q);
      ghost var f := FeedAll(Resumed(q), frames[i]);
      assert frames[..i] + [frames[i]] == frames[..i + 1];
      Pieces(Idle(true), frames[..i], frames[i]);
      FineSoFar(f.packets, verdict);
      FrameFails(frames, i + 1, before, f, verdict);
      q := f.phase;
      if rc != 0 {
        FramesCut(frames);
        return reader.handled;
      }
    }
    assert frames[..|frames|] == frames;
    FineSoFar(reader.handled, verdict);
    FramesCut(frames);
    return reader.handled;
  }

  lemma FramesCut(frames: seq<bytes>)
    ensures ZeroFree(Idle(true), Concat(frames)) ==>
              FeedPieces(Idle(true), frames) == FeedAll(Idle(true), Concat(frames))
  {
    if ZeroFree(Idle(true), Concat(frames)) { CutAnywhere(Idle(true), frames); }
  }

  lemma UpToOne(packets: seq<Packet>, verdict: Packet -> nat)
    requires packets != []
    ensures UpToFailure(packets, verdict) == [packets[0]] + if verdict(packets[0]) != 0 then []
            else UpToFailure(packets[1..], verdict)
    ensures AllFine(packets, verdict) <==> verdict(packets[0]) == 0 && AllFine(packets[1..], verdict)
  {
    assert packets == [packets[0]] + packets[1..];
    FineSplit([packets[0]], packets[1..], verdict);
  }

  lemma {:induction false} UpToAppend(a: seq<Packet>, b: seq<Packet>, verdict: Packet -> nat)
    ensures UpToFailure(a + b, verdict) == if AllFine(a, verdict) then a + UpToFailure(b, verdict)
            else UpToFailure(a, verdict)
  {
    hide AllFine, UpToFailure;
    if a == [] {
      assert a + b == b && a + UpToFailure(b, verdict) == UpToFailure(b, verdict);
      FineSplit([], [], verdict);
    } else {
      var r := UpToFailure(b, verdict);
      UpToOne(a + b, verdict);
      UpToOne(a, verdict);
      assert (a + b)[1..] == a[1..] + b;
      UpToAppend(a[1..], b, verdict);
      assert [a[0]] + (a[1..] + r) == a + r;
    }
  }

  lemma FineSplit(a: seq<Packet>, b: seq<Packet>, verdict: Packet -> nat)
    ensures AllFine(a + b, verdict) <==> AllFine(a, verdict) && AllFine(b, verdict)
    ensures AllFine([], verdict) && (|b| == 1 ==> (AllFine(b, verdict) <==> verdict(b[0]) == 0))
  {
    assert forall i | 0 <= i < |a| :: (a + b)[i] == a[i];
    assert forall i | 0 <= i < |b| :: (a + b)[|a| + i] == b[i];
  }

  /** More frames only add packets, and none after an error. */
  lemma {:induction false} FramesAfter(p: Phase, frames: seq<bytes>, i: nat) returns (rest: seq<Packet>)
    requires i <= |frames|
    ensures FeedPieces(p, frames).packets == FeedPieces(p, frames[..i]).packets + rest
    ensures FeedPieces(p, frames[..i]).phase.Broken? ==> rest == [] && FeedPieces(p, frames).phase.Broken?
    decreases |frames|
  {
    if i == |frames| {
      assert frames[..i] == frames;
      rest := [];
    } else {
      var n := |frames| - 1;
      rest := FramesAfter(p, frames[..n], i);
      assert frames[..n][..i] == frames[..i];
      var f := FeedAll(Resumed(FeedPieces(p, frames[..n]).phase), frames[n]);
      FeedStuck(frames[n]);
      rest := rest + f.packets;
    }
  }

  /** What an error in frame `i - 1` means for all the frames. */
  lemma FrameFails(frames: seq<bytes>, i: nat, before: seq<Packet>, f: Fed, verdict: Packet -> nat)
    requires i <= |frames| && FeedPieces(Idle(true), frames[..i]) == Fed(f.phase, before + f.packets)
             && AllFine(before, verdict)
    ensures f.phase.Broken? || !AllFine(f.packets, verdict) ==>
              UpToFailure(FeedPieces(Idle(true), frames).packets, verdict) == before + UpToFailure(f.packets, verdict)
    ensures AllFine(f.packets, verdict) ==> AllFine(before + f.packets, verdict)
  {
    hide FeedPieces, UpToFailure, AllFine;
    var rest := FramesAfter(Idle(true), frames, i);
    UpToAppend(before, f.packets, verdict);
    UpToAppend(before + f.packets, rest, verdict);
    FineSplit(before, f.packets, verdict);
    if f.phase.Broken? {
      assert before + f.packets + [] == before + f.packets;
    }
  }
}
