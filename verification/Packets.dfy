/** PUBLISH and CONNECT: what the client library writes and what the broker reads. */
module Packets {
  import opened Wrappers
  import opened Topics
  import opened Wire
  import opened Framing

  // ----- PUBLISH (section 3.3 of MQTT 3.1.1) -----

  datatype Publication = Publication(topic: bytes, qos: nat, mid: nat, retain: bool, dup: bool, payload: bytes)

  const PUBLISH := 48
  const CONNECT := 16

  function Bit(b: bool): int {
    if b then 1 else 0
  }

  function PublishCommand(p: Publication): byte
    requires p.qos <= 2
  {
    PUBLISH + 8 * Bit(p.dup) + 2 * p.qos + Bit(p.retain)
  }

  /** The topic as the library writes it, with 16 bits of its length. */
  function PublishBody(p: Publication): bytes
    requires p.mid < 65536
  {
    Str(p.topic[..|p.topic| % 65536]) + (if p.qos > 0 then U16(p.mid) else []) + p.payload
  }

  function PublishLength(p: Publication): nat {
    2 + |p.topic| + |p.payload| + if p.qos > 0 then 2 else 0
  }

  lemma Remainder(n: nat)
    ensures 0 <= n % 65536 <= n && (n % 65536 == n <==> n <= 65535)
  {
  }

  /** `_mosquitto_send_real_publish`. The packet is filled exactly unless the topic is too long for its length field. */
  method SendPublish(p: Publication) returns (packet: OutPacket, ok: bool)
    requires p.qos <= 2 && p.mid < 65536
    ensures ok <==> PublishLength(p) <= LARGEST
    ensures ok ==> packet.Valid() && packet.Written() ==
                                     [PublishCommand(p)] + LengthBytes(PublishLength(p)) + PublishBody(p)
    ensures ok ==> (packet.pos == packet.packetLength <==> |p.topic| <= 65535)
  {
    hide LengthBytes, PublishBody;
    var packetlen := 2 + |p.topic| + |p.payload|;
    if p.qos > 0 {
      packetlen := packetlen + 2;
    }
    packet := new OutPacket(PUBLISH + 8 * Bit(p.dup) + 2 * p.qos + Bit(p.retain), packetlen);
    ok := packet.Alloc();
    if !ok {
      return;
    }
    ghost var start := packet.Written();
    WritePublish(packet, p);
    assert packet.Written() == start + PublishBody(p);
  }

  /** Topic, message id and payload. */
  method WritePublish(packet: OutPacket, p: Publication)
    requires packet.Valid() && packet.packetLength == packet.pos + PublishLength(p) && p.mid < 65536
    modifies packet`pos, packet.payload
    ensures packet.Valid() && packet.Written() == old(packet.Written()) + PublishBody(p)
    ensures packet.pos == packet.packetLength <==> |p.topic| <= 65535
  {
    hide U16, Str, OutPacket.Written;
    Remainder(|p.topic|);
    packet.WriteString(p.topic, |p.topic|);
    if p.qos > 0 {
      packet.WriteUint16(p.mid);
    }
    if |p.payload| > 0 {
      packet.WriteBytes(p.payload, |p.payload|);
    }
    assert p.payload[..|p.payload|] == p.payload;
  }

  /** What `mqtt3_handle_publish` makes of a packet. */
  function PublishOf(packet: Packet): Option<Publication> {
    var header := packet.command as int;
    var dup, qos, retain := header / 8 % 2 == 1, header / 2 % 4, header % 2 == 1;
    if qos == 3 then None
    else
      var t := TakeString(packet.payload);
      if t.None? then None
      else
        var topic := CString(t.value.0);
        if topic == [] || !Literal(Text(topic)) then None
        else if qos == 0 then Some(Publication(topic, 0, 0, retain, dup, t.value.1))
        else
          var m := TakeU16(t.value.1);
          if m.None? then None else Some(Publication(topic, qos, m.value.0, retain, dup, m.value.1))
  }

  /** The part of `mqtt3_handle_publish` that reads the packet. */
  method ReadPublish(packet: Packet) returns (p: Option<Publication>)
    ensures p == PublishOf(packet)
  {
    var header := packet.command as int;
    var dup, qos, retain := header / 8 % 2 == 1, header / 2 % 4, header % 2 == 1;
    if qos == 3 {
      return None;
    }
    var cursor := new InPacket(packet);
    var s := cursor.ReadString();
    if s.None? {
      return None;
    }
    var topic := CString(s.value);
    if topic == [] {
      return None;
    }
    CStringShort(s.value);
    TakeStringShort(packet.payload);
    var ok := PubTopicCheck(Text(topic));
    if !ok {
      return None;
    }
    var mid := 0;
    if qos > 0 {
      var m := cursor.ReadUint16();
      if m.None? {
        return None;
      }
      mid := m.value;
    }
    ghost var rest := cursor.Rest();
    assert rest[..|rest|] == rest;
    var payload := cursor.ReadBytes(|packet.payload| - cursor.pos);
    if payload.None? {
      return None;
    }
    return Some(Publication(topic, qos, mid, retain, dup, payload.value));
  }

  lemma {:induction false} CStringShort(s: bytes)
    ensures |CString(s)| <= |s|
  {
    if s != [] { CStringShort(s[1..]); }
  }

  /** A publication that a client may make. */
  predicate Publishable(p: Publication) {
    && p.qos <= 2 && p.mid < 65536 && (p.qos == 0 ==> p.mid == 0)
    && 0 < |p.topic| <= 65535 && 0 !in p.topic && Literal(Text(p.topic)) && PublishLength(p) <= LARGEST
  }

  function PublishPacket(p: Publication): Packet
    requires p.qos <= 2 && p.mid < 65536
  {
    Packet(PublishCommand(p), PublishBody(p))
  }

  /** What is published is what the broker reads. */
  lemma PublishRoundTrip(p: Publication)
    requires Publishable(p)
    ensures PublishOf(PublishPacket(p)) == Some(p)
    ensures |PublishBody(p)| == PublishLength(p)
  {
    var rest := (if p.qos > 0 then U16(p.mid) else []) + p.payload;
    assert p.topic[..|p.topic|] == p.topic;
    assert PublishBody(p) == Str(p.topic) + rest;
    TakeStringBack(p.topic, rest);
    NoNul(p.topic);
    if p.qos > 0 {
      TakeU16Back(p.mid, p.payload);
    } else {
      assert rest == p.payload;
    }
    PublishHeader(p);
  }

  /** The bytes of a PUBLISH for "a/b" with packet id 10, QoS 1 and the retain flag (sections 3.3.1 and 3.3.2). */
  lemma PublishBytes()
    ensures Encode(PublishPacket(Publication([97, 47, 98], 1, 10, true, false, [1]))) ==
            [0x33, 8, 0, 3, 97, 47, 98, 0, 10, 1]
    ensures PublishCommand(Publication([97], 2, 10, false, true, [])) == 0x3C
  {
    var p := Publication([97, 47, 98], 1, 10, true, false, [1]);
    assert p.topic[..3] == p.topic;
    assert PublishBody(p) == [0, 3, 97, 47, 98, 0, 10, 1];
  }

  lemma PublishHeader(p: Publication)
    requires p.qos <= 2
    ensures var header := PublishCommand(p) as int;
            (header / 8 % 2 == 1 <==> p.dup) && header / 2 % 4 == p.qos && (header % 2 == 1 <==> p.retain)
  {
  }

  // ----- CONNECT (section 3.1 of MQTT 3.1.1) -----

  datatype Will = Will(topic: bytes, payload: bytes, qos: nat, retain: bool)

  datatype Connection = Connection(mqtt311: bool, clean: bool, keepalive: nat, clientId: bytes, will: Option<Will>,
                                   username: Option<bytes>, password: Option<bytes>)

  /** "MQIsdp" and "MQTT". */
  const NAME_31: bytes := [77, 81, 73, 115, 100, 112]
  const NAME_311: bytes := [77, 81, 84, 84]

  /** A string as it is written, with 16 bits of its length. */
  function Written(s: bytes): bytes {
    Str(s[..|s| % 65536])
  }

  lemma WrittenShort(s: bytes)
    requires |s| <= 65535
    ensures Written(s) == Str(s)
  {
    assert s[..|s|] == s;
  }

  function Flags(c: Connection): byte
    requires c.will.Some? ==> c.will.value.qos <= 2
  {
    2 * Bit(c.clean)
    + (if c.will.Some? then 32 * Bit(c.will.value.retain) + 8 * c.will.value.qos + 4 else 0)
    + (if c.username.Some? then 128 + 64 * Bit(c.password.Some?) else 0)
  }

  function WillPart(will: Option<Will>): bytes {
    if will.None? then [] else Written(will.value.topic) + Written(will.value.payload)
  }

  function UserPart(username: Option<bytes>, password: Option<bytes>): bytes {
    if username.None? then [] else Written(username.value) + if password.None? then [] else Written(password.value)
  }

  function Header(c: Connection): bytes
    requires c.keepalive < 65536 && (c.will.Some? ==> c.will.value.qos <= 2)
  {
    (if c.mqtt311 then Str(NAME_311) + [4] else Str(NAME_31) + [3]) + [Flags(c)] + U16(c.keepalive)
  }

  function ConnectBody(c: Connection): bytes
    requires c.keepalive < 65536 && (c.will.Some? ==> c.will.value.qos <= 2)
  {
    Header(c) + Written(c.clientId) + WillPart(c.will) + UserPart(c.username, c.password)
  }

  /** The bytes of a CONNECT with the flags of the example in section 3.1.2, a will and a user. */
  lemma ConnectBytes()
    ensures ConnectBody(Connection(true, true, 10, [97], Some(Will([119], [112], 1, false)), Some([117]), Some([112])))
            == [0, 4, 77, 81, 84, 84, 4, 206, 0, 10, 0, 1, 97, 0, 1, 119, 0, 1, 112, 0, 1, 117, 0, 1, 112]
  {
    WrittenShort([97]);
    WrittenShort([119]);
    WrittenShort([112]);
    WrittenShort([117]);
  }

  function WillLength(will: Option<Will>): nat {
    if will.None? then 0 else 2 + |will.value.topic| + 2 + |will.value.payload|
  }

  function UserLength(username: Option<bytes>, password: Option<bytes>): nat {
    if username.None? then 0 else 2 + |username.value| + if password.None? then 0 else 2 + |password.value|
  }

  function ConnectLength(c: Connection): nat {
    (if c.mqtt311 then 10 else 12) + 2 + |c.clientId| + WillLength(c.will) + UserLength(c.username, c.password)
  }

  predicate WillFits(will: Option<Will>) {
    will.Some? ==> |will.value.topic| <= 65535 && |will.value.payload| <= 65535
  }

  predicate UserFits(username: Option<bytes>, password: Option<bytes>) {
    username.Some? ==> |username.value| <= 65535 && (password.Some? ==> |password.value| <= 65535)
  }

  lemma WrittenLength(s: bytes)
    ensures |Written(s)| <= 2 + |s| && (|Written(s)| == 2 + |s| <==> |s| <= 65535)
  {
    Remainder(|s|);
  }

  lemma PartLengths(will: Option<Will>, username: Option<bytes>, password: Option<bytes>)
    ensures |WillPart(will)| <= WillLength(will) && (|WillPart(will)| == WillLength(will) <==> WillFits(will))
    ensures |UserPart(username, password)| <= UserLength(username, password)
    ensures |UserPart(username, password)| == UserLength(username, password) <==> UserFits(username, password)
  {
    if will.Some? {
      WrittenLength(will.value.topic);
      WrittenLength(will.value.payload);
    }
    if username.Some? {
      WrittenLength(username.value);
      if password.Some? { WrittenLength(password.value); }
    }
  }

  /**
    `_mosquitto_send_connect` without a bridge. The packet is filled exactly just when every string fits its length
    field.
  */
  method SendConnect(c: Connection) returns (packet: OutPacket, ok: bool)
    requires c.keepalive < 65536 && (c.will.Some? ==> c.will.value.qos <= 2)
    ensures ok <==> ConnectLength(c) <= LARGEST
    ensures ok ==> packet.Valid() && packet.Written() == [CONNECT] + LengthBytes(ConnectLength(c)) + ConnectBody(c)
    ensures ok ==> (packet.pos == packet.packetLength <==>
                      |c.clientId| <= 65535 && WillFits(c.will) && UserFits(c.username, c.password))
  {
    hide LengthBytes, ConnectBody, WillFits, UserFits;
    var headerlen := if c.mqtt311 then 10 else 12;
    var payloadlen := 2 + |c.clientId|;
    if c.will.Some? {
      payloadlen := payloadlen + 2 + |c.will.value.topic| + 2 + |c.will.value.payload|;
    }
    if c.username.Some? {
      payloadlen := payloadlen + 2 + |c.username.value|;
      if c.password.Some? {
        payloadlen := payloadlen + 2 + |c.password.value|;
      }
    }
    packet := new OutPacket(CONNECT, headerlen + payloadlen);
    ok := packet.Alloc();
    if !ok {
      return;
    }
    WriteConnect(packet, c);
  }

  method WriteConnect(packet: OutPacket, c: Connection)
    requires c.keepalive < 65536 && (c.will.Some? ==> c.will.value.qos <= 2)
    requires packet.Valid() && packet.packetLength == packet.pos + ConnectLength(c)
    modifies packet`pos, packet.payload
    ensures packet.Valid() && packet.Written() == old(packet.Written()) + ConnectBody(c)
    ensures packet.pos == packet.packetLength <==>
              |c.clientId| <= 65535 && WillFits(c.will) && UserFits(c.username, c.password)
  {
    hide Header, Written, WillFits, UserFits, WillPart, UserPart, WillLength, UserLength;
    HeaderLength(c);
    WrittenLength(c.clientId);
    PartLengths(c.will, c.username, c.password);
    WriteHeader(packet, c);
    WriteText(packet, c.clientId);
    WriteWill(packet, c.will);
    WriteUser(packet, c.username, c.password);
    assert packet.Written() == old(packet.Written()) + ConnectBody(c);
    assert packet.pos == |packet.Written()|;
  }

  lemma HeaderLength(c: Connection)
    requires c.keepalive < 65536 && (c.will.Some? ==> c.will.value.qos <= 2)
    ensures |Header(c)| == if c.mqtt311 then 10 else 12
  {
  }

  method WriteVersion(packet: OutPacket, mqtt311: bool)
    requires packet.Valid() && packet.pos + (if mqtt311 then 7 else 9) <= packet.packetLength
    modifies packet`pos, packet.payload
    ensures packet.Valid() && packet.pos == old(packet.pos) + (if mqtt311 then 7 else 9)
    ensures packet.Written() == old(packet.Written()) + (if mqtt311 then Str(NAME_311) + [4] else Str(NAME_31) + [3])
  {
    hide U16;
    assert NAME_31[..6] == NAME_31 && NAME_311[..4] == NAME_311;
    if mqtt311 {
      packet.WriteString(NAME_311, 4);
      packet.WriteByte(4);
    } else {
      packet.WriteString(NAME_31, 6);
      packet.WriteByte(3);
    }
  }

  method WriteHeader(packet: OutPacket, c: Connection)
    requires c.keepalive < 65536 && (c.will.Some? ==> c.will.value.qos <= 2)
    requires packet.Valid() && packet.pos + |Header(c)| <= packet.packetLength
    modifies packet`pos, packet.payload
    ensures packet.Valid() && packet.Written() == old(packet.Written()) + Header(c)
  {
    hide U16;
    HeaderLength(c);
    ghost var w0 := packet.Written();
    WriteVersion(packet, c.mqtt311);
    packet.WriteByte(Flags(c));
    packet.WriteUint16(c.keepalive);
    assert packet.Written() == w0 + Header(c);
  }

  method WriteText(packet: OutPacket, s: bytes)
    requires packet.Valid() && packet.pos + |Written(s)| <= packet.packetLength
    modifies packet`pos, packet.payload
    ensures packet.Valid() && packet.Written() == old(packet.Written()) + Written(s)
  {
    Remainder(|s|);
    packet.WriteString(s, |s|);
  }

  method WriteWill(packet: OutPacket, will: Option<Will>)
    requires packet.Valid() && packet.pos + |WillPart(will)| <= packet.packetLength
    modifies packet`pos, packet.payload
    ensures packet.Valid() && packet.Written() == old(packet.Written()) + WillPart(will)
  {
    hide Written;
    ghost var w0 := packet.Written();
    if will.Some? {
      WriteText(packet, will.value.topic);
      assert packet.pos == |packet.Written()|;
      WriteText(packet, will.value.payload);
    }
    assert packet.Written() == w0 + WillPart(will);
  }

  method WriteUser(packet: OutPacket, username: Option<bytes>, password: Option<bytes>)
    requires packet.Valid() && packet.pos + |UserPart(username, password)| <= packet.packetLength
    modifies packet`pos, packet.payload
    ensures packet.Valid() && packet.Written() == old(packet.Written()) + UserPart(username, password)
  {
    hide Written;
    ghost var w0 := packet.Written();
    if username.Some? {
      WriteText(packet, username.value);
      assert packet.pos == |packet.Written()|;
      if password.Some? {
        WriteText(packet, password.value);
      }
    }
    assert packet.Written() == w0 + UserPart(username, password);
  }

  // ----- what the broker reads -----

  /** The will, if there is one; its topic is a C string, its payload is not. */
  function WillOf(s: bytes, mqtt311: bool, will: bool, qos: nat, retain: bool): Option<(Option<Will>, bytes)> {
    if !will then
      if mqtt311 && (qos != 0 || retain) then None else Some((None, s))
    else
      var t := TakeString(s);
      if t.None? || CString(t.value.0) == [] || !Literal(Text(CString(t.value.0))) then None
      else
        var p := TakeString(t.value.1);
        if p.None? then None else Some((Some(Will(CString(t.value.0), p.value.0, qos, retain)), p.value.1))
  }

  /** User name and password; version 3.1 goes on if they are announced but missing. */
  function UserOf(s: bytes, mqtt311: bool, usernameFlag: bool, passwordFlag: bool)
      : Option<(Option<bytes>, Option<bytes>)> {
    if !usernameFlag then
      if mqtt311 && passwordFlag then None else Some((None, None))
    else
      var u := TakeString(s);
      if u.None? then if mqtt311 then None else Some((None, None))
      else if !passwordFlag then Some((Some(CString(u.value.0)), None))
      else
        var p := TakeString(u.value.1);
        if p.None? then if mqtt311 then None else Some((Some(CString(u.value.0)), None))
        else Some((Some(CString(u.value.0)), Some(CString(p.value.0))))
  }

  /** Protocol name and version; a version may have its top bit set. */
  function ProtocolOf(command: byte, s: bytes): Option<(bool, bytes)> {
    var n := TakeString(s);
    if n.None? then None
    else
      var v := TakeByte(n.value.1);
      if v.None? then None
      else if CString(n.value.0) == NAME_31 then if v.value.0 % 128 == 3 then Some((false, v.value.1)) else None
      else if CString(n.value.0) == NAME_311 then if v.value.0 % 128 == 4 && command % 16 == 0
          then Some((true, v.value.1)) else None
      else None
  }

  /** Everything from the client id on. An empty id stands for one that the broker makes up. */
  function PayloadOf(s: bytes, mqtt311: bool, flags: byte, keepalive: nat, allowEmptyId: bool): Option<Connection> {
    var clean := flags / 2 % 2 == 1;
    var id := TakeString(s);
    if id.None? then None
    else if CString(id.value.0) == [] && !(mqtt311 && clean && allowEmptyId) then None
    else
      var w := WillOf(id.value.1, mqtt311, flags / 4 % 2 == 1, (flags / 8 % 4) as int, flags / 32 % 2 == 1);
      if w.None? then None
      else
        var u := UserOf(w.value.1, mqtt311, flags / 128 % 2 == 1, flags / 64 % 2 == 1);
        if u.None? then None
        else Some(Connection(mqtt311, clean, keepalive, CString(id.value.0), w.value.0, u.value.0, u.value.1))
  }

  /** What `mqtt3_handle_connect` makes of a packet, before it looks at the configuration of the broker. */
  function ConnectOf(packet: Packet, allowEmptyId: bool): Option<Connection> {
    var p := ProtocolOf(packet.command, packet.payload);
    if p.None? then None
    else
      var f := TakeByte(p.value.1);
      if f.None? || f.value.0 / 8 % 4 == 3 then None
      else
        var k := TakeU16(f.value.1);
        if k.None? then None else PayloadOf(k.value.1, p.value.0, f.value.0, k.value.0, allowEmptyId)
  }

  /** A connection that a client may ask for. */
  predicate Connectable(c: Connection, allowEmptyId: bool) {
    && c.keepalive < 65536
    && |c.clientId| <= 65535 && 0 !in c.clientId && (c.clientId == [] ==> c.mqtt311 && c.clean && allowEmptyId)
    && WillFits(c.will) && UserFits(c.username, c.password)
    && (c.will.Some? ==>
          c.will.value.qos <= 2 && c.will.value.topic != [] && 0 !in c.will.value.topic
          && Literal(Text(c.will.value.topic)))
    && (c.username.Some? ==> 0 !in c.username.value)
    && (c.password.Some? ==> c.username.Some? && 0 !in c.password.value)
  }

  lemma ProtocolBack(mqtt311: bool, rest: bytes)
    ensures ProtocolOf(CONNECT, (if mqtt311 then Str(NAME_311) + [4] else Str(NAME_31) + [3]) + rest) ==
              Some((mqtt311, rest))
  {
    var name, version: byte := if mqtt311 then NAME_311 else NAME_31, if mqtt311 then 4 else 3;
    assert (Str(name) + [version]) + rest == Str(name) + ([version] + rest);
    TakeStringBack(name, [version] + rest);
    NoNul(name);
    assert ([version] + rest)[1..] == rest;
  }

  lemma WillBack(will: Option<Will>, mqtt311: bool, rest: bytes)
    requires WillFits(will)
             && (will.Some? ==> will.value.topic != [] && 0 !in will.value.topic && Literal(Text(will.value.topic)))
    ensures WillOf(WillPart(will) + rest, mqtt311, will.Some?, if will.Some? then will.value.qos else 0, will.Some?
                   && will.value.retain)
            == Some((will, rest))
  {
    if will.Some? {
      var w := will.value;
      WrittenShort(w.topic);
      WrittenShort(w.payload);
      assert WillPart(will) + rest == Str(w.topic) + (Str(w.payload) + rest);
      TakeStringBack(w.topic, Str(w.payload) + rest);
      TakeStringBack(w.payload, rest);
      NoNul(w.topic);
    } else {
      assert [] + rest == rest;
    }
  }

  lemma UserBack(username: Option<bytes>, password: Option<bytes>, mqtt311: bool)
    requires UserFits(username, password) && (username.Some? ==> 0 !in username.value)
    requires password.Some? ==> username.Some? && 0 !in password.value
    ensures UserOf(UserPart(username, password), mqtt311, username.Some?, password.Some?) == Some((username, password))
  {
    if username.Some? {
      WrittenShort(username.value);
      NoNul(username.value);
      var rest := if password.None? then [] else Written(password.value);
      TakeStringBack(username.value, rest);
      if password.Some? {
        WrittenShort(password.value);
        NoNul(password.value);
        assert Str(password.value) + [] == Str(password.value);
        TakeStringBack(password.value, []);
      }
    }
  }

  lemma FlagsBack(c: Connection)
    requires c.will.Some? ==> c.will.value.qos <= 2
    ensures var f := Flags(c);
            && (f / 2 % 2 == 1 <==> c.clean) && (f / 4 % 2 == 1 <==> c.will.Some?)
            && (f / 8 % 4) as int == (if c.will.Some? then c.will.value.qos else 0)
            && (f / 32 % 2 == 1 <==> c.will.Some? && c.will.value.retain)
            && (f / 64 % 2 == 1 <==> c.username.Some? && c.password.Some?) && (f / 128 % 2 == 1 <==> c.username.Some?)
  {
    hide Bit;
    var will, qos, retain := if c.will.Some? then 1 else 0, if c.will.Some? then c.will.value.qos else 0,
                             if c.will.Some? && c.will.value.retain then 1 else 0;
    FlagDigits(if c.clean then 1 else 0, will, qos, retain, if c.username.Some? && c.password.Some? then 1 else 0,
               if c.username.Some? then 1 else 0);
    BitValue(c.clean);
    BitValue(c.password.Some?);
    if c.will.Some? { BitValue(c.will.value.retain); }
  }

  lemma BitValue(b: bool)
    ensures Bit(b) == if b then 1 else 0
  {
  }

  lemma FlagDigits(clean: nat, will: nat, qos: nat, retain: nat, password: nat, username: nat)
    requires clean <= 1 && will <= 1 && qos <= 3 && retain <= 1 && password <= 1 && username <= 1
    ensures var f := 2 * clean + (32 * retain + 8 * qos + 4 * will) + (128 * username + 64 * password);
            f / 2 % 2 == clean && f / 4 % 2 == will && f / 8 % 4 == qos && f / 32 % 2 == retain
                && f / 64 % 2 == password && f / 128 % 2 == username
  {
    var f := 2 * clean + (32 * retain + 8 * qos + 4 * will) + (128 * username + 64 * password);
    assert f / 2 == clean + 2 * (will + 2 * qos + 8 * retain + 16 * password + 32 * username);
    assert f / 4 == will + 2 * (qos + 4 * retain + 8 * password + 16 * username);
    assert f / 8 == qos + 4 * (retain + 2 * password + 4 * username);
    assert f / 32 == retain + 2 * (password + 2 * username);
    assert f / 64 == password + 2 * username;
    assert f / 128 == username;
  }

  /** What is asked for is what the broker reads. */
  lemma ConnectRoundTrip(c: Connection, allowEmptyId: bool)
    requires Connectable(c, allowEmptyId)
    ensures ConnectOf(Packet(CONNECT, ConnectBody(c)), allowEmptyId) == Some(c)
    ensures |ConnectBody(c)| == ConnectLength(c) <= LARGEST
  {
    hide Flags, WillOf, UserOf, ProtocolOf, WillPart, UserPart, WillFits, UserFits, Written, Str, U16, CString,
         TakeString, TakeU16, Literal, Text;
    var p := if c.mqtt311 then Str(NAME_311) + [4] else Str(NAME_31) + [3];
    var r4 := UserPart(c.username, c.password);
    var r3 := WillPart(c.will) + r4;
    var r2 := Written(c.clientId) + r3;
    var r1 := [Flags(c)] + (U16(c.keepalive) + r2);
    assert ConnectBody(c) == p + r1;
    ProtocolBack(c.mqtt311, r1);
    assert r1[1..] == U16(c.keepalive) + r2;
    TakeU16Back(c.keepalive, r2);
    WrittenShort(c.clientId);
    TakeStringBack(c.clientId, r3);
    NoNul(c.clientId);
    WillBack(c.will, c.mqtt311, r4);
    UserBack(c.username, c.password, c.mqtt311);
    FlagsBack(c);
    ConnectLengths(c);
  }

  lemma ConnectLengths(c: Connection)
    requires c.keepalive < 65536 && (c.will.Some? ==> c.will.value.qos <= 2)
    requires |c.clientId| <= 65535 && WillFits(c.will) && UserFits(c.username, c.password)
    ensures |ConnectBody(c)| == ConnectLength(c) <= LARGEST
  {
    hide Written, Header, UserPart, WillPart;
    HeaderLength(c);
    WrittenLength(c.clientId);
    PartLengths(c.will, c.username, c.password);
  }

  /** The part of `mqtt3_handle_connect` that reads the packet. */
  method ReadConnect(packet: Packet, allowEmptyId: bool) returns (c: Option<Connection>)
    ensures c == ConnectOf(packet, allowEmptyId)
  {
    hide WillOf, UserOf, CString, TakeString, TakeU16;
    var cursor := new InPacket(packet);
    assert cursor.Rest() == packet.payload;
    var name := cursor.ReadString();
    if name.None? {
      return None;
    }
    var version := cursor.ReadByte();
    if version.None? {
      return None;
    }
    var mqtt311;
    if CString(name.value) == NAME_31 {
      if version.value % 128 != 3 {
        return None;
      }
      mqtt311 := false;
    } else if CString(name.value) == NAME_311 {
      if version.value % 128 != 4 {
        return None;
      }
      if packet.command % 16 != 0 {
        return None;
      }
      mqtt311 := true;
    } else {
      return None;
    }
    var flags := cursor.ReadByte();
    if flags.None? || flags.value / 8 % 4 == 3 {
      return None;
    }
    var keepalive := cursor.ReadUint16();
    if keepalive.None? {
      return None;
    }
    c := ReadPayload(cursor, mqtt311, flags.value, keepalive.value, allowEmptyId);
  }

  method ReadPayload(cursor: InPacket, mqtt311: bool, flags: byte, keepalive: nat, allowEmptyId: bool)
      returns (c: Option<Connection>)
    requires cursor.pos <= |cursor.payload|
    modifies cursor`pos
    ensures c == PayloadOf(old(cursor.Rest()), mqtt311, flags, keepalive, allowEmptyId)
  {
    hide WillOf, UserOf, CString, TakeString, TakeU16;
    var clean := flags / 2 % 2 == 1;
    var id := cursor.ReadString();
    if id.None? {
      return None;
    }
    if CString(id.value) == [] {
      if !mqtt311 {
        return None;
      }
      if !clean || !allowEmptyId {
        return None;
      }
    }
    var will := ReadWill(cursor, mqtt311, flags / 4 % 2 == 1, (flags / 8 % 4) as int, flags / 32 % 2 == 1);
    if will.None? {
      return None;
    }
    var user := ReadUser(cursor, mqtt311, flags / 128 % 2 == 1, flags / 64 % 2 == 1);
    if user.None? {
      return None;
    }
    return Some(Connection(mqtt311, clean, keepalive, CString(id.value), will.value, user.value.0, user.value.1));
  }

  method ReadWill(cursor: InPacket, mqtt311: bool, will: bool, qos: nat, retain: bool) returns (r: Option<Option<Will>>)
    requires cursor.pos <= |cursor.payload|
    modifies cursor`pos
    ensures cursor.pos <= |cursor.payload|
    ensures var w := WillOf(old(cursor.Rest()), mqtt311, will, qos, retain);
            if r.Some? then w == Some((r.value, cursor.Rest())) else w.None?
  {
    hide CString;
    if !will {
      if mqtt311 {
        if qos != 0 || retain {
          return None;
        }
      }
      return Some(None);
    }
    ghost var start := cursor.Rest();
    var topic := cursor.ReadString();
    if topic.None? {
      return None;
    }
    var name := CString(topic.value);
    if name == [] {
      return None;
    }
    CStringShort(topic.value);
    TakeStringShort(start);
    var ok := PubTopicCheck(Text(name));
    if !ok {
      return None;
    }
    var len := cursor.ReadUint16();
    if len.None? {
      return None;
    }
    var payload := cursor.ReadBytes(len.value);
    if payload.None? {
      return None;
    }
    return Some(Some(Will(name, payload.value, qos, retain)));
  }

  method ReadUser(cursor: InPacket, mqtt311: bool, usernameFlag: bool, passwordFlag: bool)
      returns (r: Option<(Option<bytes>, Option<bytes>)>)
    requires cursor.pos <= |cursor.payload|
    modifies cursor`pos
    ensures r == UserOf(old(cursor.Rest()), mqtt311, usernameFlag, passwordFlag)
  {
    hide CString, TakeString;
    if !usernameFlag {
      if mqtt311 {
        if passwordFlag {
          return None;
        }
      }
      return Some((None, None));
    }
    var username := cursor.ReadString();
    if username.None? {
      return if mqtt311 then None else Some((None, None));
    }
    var password := None;
    if passwordFlag {
      var s := cursor.ReadString();
      if s.None? {
        return if mqtt311 then None else Some((Some(CString(username.value)), None));
      }
      password := Some(CString(s.value));
    }
    return Some((Some(CString(username.value)), password));
  }

  // ----- the whole way -----

  function PublishPackets(ps: seq<Publication>): seq<Packet>
    requires forall i | 0 <= i < |ps| :: Publishable(ps[i])
  {
    seq(|ps|, i requires 0 <= i < |ps| && Publishable(ps[i]) => PublishPacket(ps[i]))
  }

  /** A CONNECT and any publications after it arrive as they were sent, in their order, however the stream is cut. */
  lemma EverythingArrives(c: Connection, allowEmptyId: bool, ps: seq<Publication>)
    requires Connectable(c, allowEmptyId) && forall i | 0 <= i < |ps| :: Publishable(ps[i])
    ensures var sent := [Packet(CONNECT, ConnectBody(c))] + PublishPackets(ps);
            && (forall pieces {:trigger Concat(pieces)} | Concat(pieces) == EncodeAll(sent) ::
                  FeedPieces(Idle(true), pieces) == Fed(Idle(false), sent))
            && ConnectOf(sent[0], allowEmptyId) == Some(c)
            && forall i | 0 <= i < |ps| :: PublishOf(sent[i + 1]) == Some(ps[i])
  {
    hide FeedPieces, Concat, EncodeAll, ConnectOf, PublishOf, ConnectBody, PublishBody, PublishPacket, PublishCommand;
    var sent := [Packet(CONNECT, ConnectBody(c))] + PublishPackets(ps);
    ConnectRoundTrip(c, allowEmptyId);
    forall i | 0 <= i < |ps| ensures PublishOf(sent[i + 1]) == Some(ps[i]) {
      PublishRoundTrip(ps[i]);
    }
    forall i | 0 <= i < |sent| ensures Sendable(sent[i], true && i == 0) {
      if i > 0 { PublishSendable(ps[i - 1]); }
    }
    hide Sendable;
    forall pieces | Concat(pieces) == EncodeAll(sent) ensures FeedPieces(Idle(true), pieces) == Fed(Idle(false), sent) {
      FeedPacketsInPieces(true, sent, pieces);
    }
  }

  lemma PublishSendable(p: Publication)
    requires Publishable(p)
    ensures Sendable(PublishPacket(p), false)
  {
    PublishRoundTrip(p);
  }

  /** What the two methods write is the encoding of these packets. */
  lemma WrittenIsEncoded(c: Connection, allowEmptyId: bool, p: Publication)
    requires Connectable(c, allowEmptyId) && Publishable(p)
    ensures Encode(Packet(CONNECT, ConnectBody(c))) == [CONNECT as byte] + LengthBytes(ConnectLength(c))
            + ConnectBody(c)
    ensures Encode(PublishPacket(p)) == [PublishCommand(p)] + LengthBytes(PublishLength(p)) + PublishBody(p)
  {
    ConnectRoundTrip(c, allowEmptyId);
    PublishRoundTrip(p);
  }
}
