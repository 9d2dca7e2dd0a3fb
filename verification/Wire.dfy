/** Packets on the wire: the fixed header with its remaining length, and the primitives that fill and read a packet. */
module Wire {
  import opened Wrappers

  type byte = x: int | 0 <= x < 256

  type bytes = seq<byte>

  /** A packet as the handlers see it. */
  datatype Packet = Packet(command: byte, payload: bytes)

  // ----- the remaining length (section 2.2.3 of MQTT 3.1.1) -----

  const LARGEST := 268435455

  /** Seven bits to a byte, the lowest first; all bytes but the last have the top bit set. */
  function LengthBytes(n: nat): (r: bytes)
    ensures |r| >= 1
  {
    if n < 128 then [n] else [n % 128 + 128] + LengthBytes(n / 128)
  }

  /** Four bytes are enough just for the lengths that the standard allows. */
  lemma LengthOfLength(n: nat)
    ensures |LengthBytes(n)| <= 4 <==> n <= LARGEST
  {
    if n >= 128 {
      OneByteMore(n);
      if n / 128 >= 128 {
        OneByteMore(n / 128);
        if n / 128 / 128 >= 128 { OneByteMore(n / 128 / 128); }
      }
    }
  }

  lemma OneByteMore(n: nat)
    requires n >= 128
    ensures |LengthBytes(n)| == 1 + |LengthBytes(n / 128)|
  {
  }

  /** A packet as it is sent. */
  function Encode(p: Packet): bytes {
    [p.command] + LengthBytes(|p.payload|) + p.payload
  }

  // ----- numbers and strings -----

  function U16(n: int): (r: bytes)
    requires 0 <= n < 65536
    ensures |r| == 2
  {
    [n / 256, n % 256]
  }

  function Str(s: bytes): bytes
    requires |s| <= 65535
  {
    U16(|s|) + s
  }

  lemma StrLength(s: bytes)
    requires |s| <= 65535
    ensures |Str(s)| == 2 + |s|
  {
  }

  function TakeByte(s: bytes): Option<(byte, bytes)> {
    if |s| < 1 then None else Some((s[0], s[1..]))
  }

  function TakeU16(s: bytes): (r: Option<(nat, bytes)>)
    ensures r.Some? ==> r.value.0 < 65536
  {
    if |s| < 2 then None else Some((s[0] as int * 256 + s[1] as int, s[2..]))
  }

  function TakeBytes(s: bytes, count: nat): Option<(bytes, bytes)> {
    if |s| < count then None else Some((s[..count], s[count..]))
  }

  function TakeString(s: bytes): Option<(bytes, bytes)> {
    var n := TakeU16(s);
    if n.None? then None else TakeBytes(n.value.1, n.value.0)
  }

  lemma TakeStringShort(s: bytes)
    ensures TakeString(s).Some? ==> |TakeString(s).value.0| <= 65535
  {
  }

  lemma TakeU16Back(n: nat, rest: bytes)
    requires n < 65536
    ensures TakeU16(U16(n) + rest) == Some((n, rest))
  {
    assert (U16(n) + rest)[2..] == rest;
  }

  lemma TakeBytesBack(s: bytes, rest: bytes)
    ensures TakeBytes(s + rest, |s|) == Some((s, rest))
  {
  }

  lemma TakeStringBack(s: bytes, rest: bytes)
    requires |s| <= 65535
    ensures TakeString(Str(s) + rest) == Some((s, rest))
  {
    assert Str(s) + rest == U16(|s|) + (s + rest);
    TakeU16Back(|s|, s + rest);
    TakeBytesBack(s, rest);
  }

  // ----- strings -----

  /** A string as the program keeps it: up to its first NUL. */
  function CString(s: bytes): bytes {
    if s == [] || s[0] == 0 then [] else [s[0]] + CString(s[1..])
  }

  lemma {:induction false} NoNul(s: bytes)
    requires 0 !in s
    ensures CString(s) == s
  {
    if s != [] { NoNul(s[1..]); }
  }

  function Text(s: bytes): string {
    seq(|s|, i requires 0 <= i < |s| => s[i] as char)
  }

  predicate OneByteEach(s: string) {
    forall i | 0 <= i < |s| :: 0 < s[i] as int < 256
  }

  function BytesOf(s: string): bytes
    requires OneByteEach(s)
  {
    seq(|s|, i requires 0 <= i < |s| => s[i] as int)
  }

  lemma TextBack(s: string)
    requires OneByteEach(s)
    ensures CString(BytesOf(s)) == BytesOf(s) && Text(BytesOf(s)) == s
  {
    NoNul(BytesOf(s));
  }

  /** A packet that is read: the cursor never passes the end. */
  class InPacket {
    const command: byte
    const payload: bytes
    var pos: nat

    constructor (p: Packet)
      ensures pos == 0 && command == p.command && payload == p.payload
    {
      command, payload, pos := p.command, p.payload, 0;
    }

    /** What is left. */
    ghost function Rest(): bytes
      requires pos <= |payload|
      reads this
    {
      payload[pos..]
    }

    method ReadByte() returns (r: Option<byte>)
      requires pos <= |payload|
      modifies this`pos
      ensures pos <= |payload|
      ensures var t := TakeByte(old(Rest()));
              if r.Some? then t == Some((r.value, Rest())) else t.None? && pos == old(pos)
    {
      if pos + 1 > |payload| {
        return None;
      }
      r := Some(payload[pos]);
      pos := pos + 1;
    }

    method ReadUint16() returns (r: Option<nat>)
      requires pos <= |payload|
      modifies this`pos
      ensures pos <= |payload|
      ensures var t := TakeU16(old(Rest()));
              if r.Some? then t == Some((r.value, Rest())) else t.None? && pos == old(pos)
    {
      if pos + 2 > |payload| {
        return None;
      }
      var msb := payload[pos];
      pos := pos + 1;
      var lsb := payload[pos];
      pos := pos + 1;
      r := Some(msb as int * 256 + lsb as int);
    }

    method ReadBytes(count: nat) returns (r: Option<bytes>)
      requires pos <= |payload|
      modifies this`pos
      ensures pos <= |payload|
      ensures var t := TakeBytes(old(Rest()), count);
              if r.Some? then t == Some((r.value, Rest())) else t.None? && pos == old(pos)
    {
      if pos + count > |payload| {
        return None;
      }
      r := Some(payload[pos..pos + count]);
      assert payload[pos..][..count] == r.value && payload[pos..][count..] == payload[pos + count..];
      pos := pos + count;
    }

    method ReadString() returns (r: Option<bytes>)
      requires pos <= |payload|
      modifies this`pos
      ensures pos <= |payload|
      ensures var t := TakeString(old(Rest()));
              if r.Some? then t == Some((r.value, Rest())) else t.None?
    {
      var len := ReadUint16();
      if len.None? {
        return None;
      }
      if pos + len.value > |payload| {
        return None;
      }
      r := Some(payload[pos..pos + len.value]);
      assert payload[pos..][..len.value] == r.value && payload[pos..][len.value..] == payload[pos + len.value..];
      pos := pos + len.value;
    }
  }

  /** A packet that is filled. */
  class OutPacket {
    const command: byte
    const remainingLength: nat
    var remainingCount: nat
    var packetLength: nat
    var payload: array<byte>
    var pos: nat

    constructor (command: byte, remainingLength: nat)
      ensures this.command == command && this.remainingLength == remainingLength && fresh(payload)
    {
      this.command, this.remainingLength := command, remainingLength;
      remainingCount, packetLength, pos := 0, 0, 0;
      payload := new byte[0];
    }

    /** What has been written. */
    ghost function Written(): bytes
      requires pos <= payload.Length
      reads this, payload
    {
      payload[..pos]
    }

    ghost predicate Valid()
      reads this, payload
    {
      pos <= packetLength == payload.Length
    }

    /** `_mosquitto_packet_alloc`: five bytes of length are too many. */
    method Alloc() returns (ok: bool)
      modifies this
      ensures ok <==> remainingLength <= LARGEST
      ensures ok ==> Valid() && fresh(payload) && packetLength == pos + remainingLength
      ensures ok ==> Written() == [command] + LengthBytes(remainingLength)
    {
      var remainingBytes := EncodeLength(remainingLength);
      LengthOfLength(remainingLength);
      if |remainingBytes| == 5 {
        return false;
      }
      remainingCount := |remainingBytes|;
      packetLength := remainingLength + 1 + remainingCount;
      payload := new byte[packetLength];
      payload[0] := command;
      forall i | 0 <= i < remainingCount {
        payload[i + 1] := remainingBytes[i];
      }
      pos := 1 + remainingCount;
      return true;
    }

    /** The loop of it, which stops after five bytes. */
    static method EncodeLength(n: nat) returns (r: bytes)
      ensures |LengthBytes(n)| <= 4 ==> r == LengthBytes(n)
      ensures |LengthBytes(n)| > 4 ==> |r| == 5
    {
      r := [];
      var rest := n;
      while true
        invariant |r| < 5 && LengthBytes(n) == r + LengthBytes(rest)
        decreases 5 - |r|
      {
        var b := rest % 128;
        rest := rest / 128;
        if rest > 0 {
          b := b + 128;
        }
        r := r + [b];
        if !(rest > 0 && |r| < 5) {
          break;
        }
      }
    }

    method WriteByte(b: byte)
      requires Valid() && pos + 1 <= packetLength
      modifies this`pos, payload
      ensures Valid() && Written() == old(Written()) + [b]
    {
      payload[pos] := b;
      pos := pos + 1;
      assert payload[..pos] == payload[..pos - 1] + [b];
    }

    method WriteUint16(word: nat)
      requires Valid() && pos + 2 <= packetLength && word < 65536
      modifies this`pos, payload
      ensures Valid() && Written() == old(Written()) + U16(word) && pos == old(pos) + 2
    {
      WriteByte(word / 256);
      WriteByte(word % 256);
    }

    method WriteBytes(s: bytes, count: nat)
      requires Valid() && count <= |s| && pos + count <= packetLength
      modifies this`pos, payload
      ensures Valid() && Written() == old(Written()) + s[..count] && pos == old(pos) + count
    {
      forall i | 0 <= i < count {
        payload[pos + i] := s[i];
      }
      pos := pos + count;
    }

    /** `_mosquitto_write_string`; the length is a 16-bit number. */
    method WriteString(s: bytes, length: nat)
      requires Valid() && length % 65536 <= |s| && pos + 2 + length % 65536 <= packetLength
      modifies this`pos, payload
      ensures Valid() && Written() == old(Written()) + Str(s[..length % 65536]) && pos == old(pos) + 2 + length % 65536
    {
      WriteUint16(length % 65536);
      WriteBytes(s, length % 65536);
    }
  }
}
