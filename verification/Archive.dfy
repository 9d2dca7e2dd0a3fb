/** The chunks of the persistence file, as they are written and read back. */
module Archive {
  import opened Wrappers
  import opened Wire

  datatype Chunk =
    | Config(shutdown: bool, lastId: nat)
    | StoreChunk(id: nat, sourceId: bytes, sourceMid: nat, mid: nat, topic: bytes, qos: byte, retain: byte,
                 payload: bytes)
    | MsgChunk(client: bytes, store: nat, mid: nat, qos: byte, retain: byte, direction: byte, state: byte, dup: byte)
    | RetainChunk(store: nat)
    | SubChunk(client: bytes, topic: bytes, qos: byte)
    | ClientChunk(client: bytes, lastMid: nat, disconnected: nat)

  const DB_CHUNK_CFG := 1
  const DB_CHUNK_MSG_STORE := 2
  const DB_CHUNK_CLIENT_MSG := 3
  const DB_CHUNK_RETAIN := 4
  const DB_CHUNK_SUB := 5
  const DB_CHUNK_CLIENT := 6
  const DB_VERSION := 3
  const MAGIC: bytes := [0, 181, 0, 109, 111, 115, 113, 117, 105, 116, 116, 111, 32, 100, 98]

  // ----- numbers -----

  const TWO32 := 4294967296
  const TWO64 := 18446744073709551616

  /** A number of 32 bits in network order. */
  function U32(n: int): (r: bytes)
    requires 0 <= n < TWO32
    ensures |r| == 4
  {
    [n / 16777216, n / 65536 % 256, n / 256 % 256, n % 256]
  }

  /** `count` bytes of a number, the lowest first, as the machine has them in memory. */
  function Native(n: nat, count: nat): (r: bytes)
    ensures |r| == count
  {
    if count == 0 then [] else [n % 256] + Native(n / 256, count - 1)
  }

  function U64(n: nat): (r: bytes)
    ensures |r| == 8
  {
    Native(n, 8)
  }

  function NativeValue(s: bytes): nat {
    if s == [] then 0 else s[0] as int + 256 * NativeValue(s[1..])
  }

  function Power256(n: nat): nat {
    if n == 0 then 1 else 256 * Power256(n - 1)
  }

  lemma {:induction false} NativeBack(n: nat, count: nat)
    requires n < Power256(count)
    ensures NativeValue(Native(n, count)) == n
  {
    if count > 0 {
      NativeBack(n / 256, count - 1);
      assert Native(n, count)[1..] == Native(n / 256, count - 1);
    }
  }

  function TakeU32(s: bytes): Option<(nat, bytes)> {
    if |s| < 4 then None
    else Some((s[0] as int * 16777216 + s[1] as int * 65536 + s[2] as int * 256 + s[3] as int, s[4..]))
  }

  function TakeU64(s: bytes): Option<(nat, bytes)> {
    if |s| < 8 then None else Some((NativeValue(s[..8]), s[8..]))
  }

  lemma TakeU32Back(n: nat, rest: bytes)
    requires n < TWO32
    ensures TakeU32(U32(n) + rest) == Some((n, rest))
  {
    assert (U32(n) + rest)[4..] == rest;
    var a := n / 256;
    var b := a / 256;
    assert n / 65536 == b && n / 16777216 == b / 256;
  }

  lemma TakeU64Back(n: nat, rest: bytes)
    requires n < TWO64
    ensures TakeU64(U64(n) + rest) == Some((n, rest))
  {
    assert (U64(n) + rest)[8..] == rest && (U64(n) + rest)[..8] == U64(n);
    assert Power256(8) == TWO64;
    NativeBack(n, 8);
  }

  lemma TakeByteBack(b: byte, rest: bytes)
    ensures TakeByte([b] + rest) == Some((b, rest))
  {
    assert ([b] + rest)[1..] == rest;
  }

  // ----- chunks -----

  /** A chunk whose numbers and strings have room in their fields. */
  predicate Storable(c: Chunk) {
    match c
    case Config(_, lastId) => lastId < TWO64
    case StoreChunk(id, sourceId, sourceMid, mid, topic, _, _, payload) =>
      id < TWO64 && |sourceId| <= 65535 && sourceMid < 65536 && mid < 65536 && |topic| <= 65535 && |payload| < TWO32
    case MsgChunk(client, store, mid, _, _, _, _, _) => 0 < |client| <= 65535 && store < TWO64 && mid < 65536
    case RetainChunk(store) => store < TWO64
    case SubChunk(client, topic, _) => |client| <= 65535 && |topic| <= 65535
    case ClientChunk(client, lastMid, disconnected) => 0 < |client| <= 65535 && lastMid < 65536 && disconnected < TWO64
  }

  function Kind(c: Chunk): nat {
    match c
    case Config(_, _) => DB_CHUNK_CFG
    case StoreChunk(_, _, _, _, _, _, _, _) => DB_CHUNK_MSG_STORE
    case MsgChunk(_, _, _, _, _, _, _, _) => DB_CHUNK_CLIENT_MSG
    case RetainChunk(_) => DB_CHUNK_RETAIN
    case SubChunk(_, _, _) => DB_CHUNK_SUB
    case ClientChunk(_, _, _) => DB_CHUNK_CLIENT
  }

  function Body(c: Chunk): bytes
    requires Storable(c)
  {
    match c
    case Config(shutdown, lastId) => [if shutdown then 1 else 0, 8] + U64(lastId)
    case StoreChunk(id, sourceId, sourceMid, mid, topic, qos, retain, payload) =>
      U64(id) + (Str(sourceId)
                 + (U16(sourceMid) + (U16(mid) + (Str(topic) + ([qos] + ([retain] + (U32(|payload|) + payload)))))))
    case MsgChunk(client, store, mid, qos, retain, direction, state, dup) =>
      Str(client) + (U64(store) + (U16(mid) + ([qos] + ([retain] + ([direction] + ([state] + [dup]))))))
    case RetainChunk(store) => U64(store)
    case SubChunk(client, topic, qos) => Str(client) + (Str(topic) + [qos])
    case ClientChunk(client, lastMid, disconnected) => Str(client) + (U16(lastMid) + U64(disconnected))
  }

  function EncodeChunk(c: Chunk): bytes
    requires Storable(c) && |Body(c)| < TWO32
  {
    U16(Kind(c)) + (U32(|Body(c)|) + Body(c))
  }

  /** The bytes of the chunk of a parked outgoing QoS 1 message with packet id 5 of client "a". */
  lemma ChunkBytes()
    ensures var c := MsgChunk([97], 1, 5, 1, 0, 1, 11, 0);
            && |Body(c)| == 18
            && EncodeChunk(c) == [0, 3, 0, 0, 0, 18, 0, 1, 97, 1, 0, 0, 0, 0, 0, 0, 0, 0, 5, 1, 0, 1, 11, 0]
  {
    var c := MsgChunk([97], 1, 5, 1, 0, 1, 11, 0);
    assert U16(1) == [0, 1] && U16(5) == [0, 5] && U16(3) == [0, 3] && U32(18) == [0, 0, 0, 18];
    assert Str([97]) == [0, 1, 97] && Kind(c) == 3;
    assert Body(c) == Str([97]) + (U64(1) + (U16(5) + ([1] + ([0] + ([1] + ([11] + [0]))))));
    hide *;
    One();
    BodyBytes(Body(c));
  }

  lemma BodyBytes(body: bytes)
    requires body == [0, 1, 97] + ([1, 0, 0, 0, 0, 0, 0, 0] + ([0, 5] + ([1] + ([0] + ([1] + ([11] + [0]))))))
    ensures body == [0, 1, 97, 1, 0, 0, 0, 0, 0, 0, 0, 0, 5, 1, 0, 1, 11, 0]
    ensures [0, 3] + ([0, 0, 0, 18] + body) ==
            [0, 3, 0, 0, 0, 18, 0, 1, 97, 1, 0, 0, 0, 0, 0, 0, 0, 0, 5, 1, 0, 1, 11, 0]
  {
  }

  lemma One()
    ensures U64(1) == [1, 0, 0, 0, 0, 0, 0, 0]
  {
    Zeros(7);
    assert seq(7, i requires 0 <= i < 7 => 0 as byte) == [0, 0, 0, 0, 0, 0, 0];
  }

  lemma {:induction false} Zeros(count: nat)
    ensures Native(0, count) == seq(count, i requires 0 <= i < count => 0 as byte)
  {
    if count > 0 { Zeros(count - 1); }
  }

  function ReadConfig(s: bytes): (r: Option<(Chunk, bytes)>)
    ensures r.Some? ==> |r.value.1| <= |s|
  {
    var shutdown :- TakeByte(s);
    var size :- TakeByte(shutdown.1);
    if size.0 != 8 then None
    else
      var lastId :- TakeU64(size.1);
      Some((Config(shutdown.0 != 0, lastId.0), lastId.1))
  }

  function ReadStore(s: bytes): (r: Option<(Chunk, bytes)>)
    ensures r.Some? ==> |r.value.1| <= |s|
  {
    var id :- TakeU64(s);
    var sourceId :- TakeString(id.1);
    var sourceMid :- TakeU16(sourceId.1);
    var mid :- TakeU16(sourceMid.1);
    var topic :- TakeString(mid.1);
    var qos :- TakeByte(topic.1);
    var retain :- TakeByte(qos.1);
    var length :- TakeU32(retain.1);
    var payload :- TakeBytes(length.1, length.0);
    Some((StoreChunk(id.0, sourceId.0, sourceMid.0, mid.0, topic.0, qos.0, retain.0, payload.0), payload.1))
  }

  function ReadMsg(s: bytes): (r: Option<(Chunk, bytes)>)
    ensures r.Some? ==> |r.value.1| <= |s|
  {
    var client :- TakeString(s);
    if client.0 == [] then None
    else
      var store :- TakeU64(client.1);
      var mid :- TakeU16(store.1);
      var qos :- TakeByte(mid.1);
      var retain :- TakeByte(qos.1);
      var direction :- TakeByte(retain.1);
      var state :- TakeByte(direction.1);
      var dup :- TakeByte(state.1);
      Some((MsgChunk(client.0, store.0, mid.0, qos.0, retain.0, direction.0, state.0, dup.0), dup.1))
  }

  function ReadRetain(s: bytes): (r: Option<(Chunk, bytes)>)
    ensures r.Some? ==> |r.value.1| <= |s|
  {
    var store :- TakeU64(s);
    Some((RetainChunk(store.0), store.1))
  }

  function ReadSub(s: bytes): (r: Option<(Chunk, bytes)>)
    ensures r.Some? ==> |r.value.1| <= |s|
  {
    var client :- TakeString(s);
    var topic :- TakeString(client.1);
    var qos :- TakeByte(topic.1);
    Some((SubChunk(client.0, topic.0, qos.0), qos.1))
  }

  /** Files of format version 2 have no time in it. */
  function ReadClient(s: bytes, version: nat): (r: Option<(Chunk, bytes)>)
    ensures r.Some? ==> |r.value.1| <= |s|
  {
    var client :- TakeString(s);
    if client.0 == [] then None
    else
      var lastMid :- TakeU16(client.1);
      if version == 2 then Some((ClientChunk(client.0, lastMid.0, 0), lastMid.1))
      else
        var disconnected :- TakeU64(lastMid.1);
        Some((ClientChunk(client.0, lastMid.0, disconnected.0), disconnected.1))
  }

  /** The body of a chunk of some kind; the length that was written is used for unknown kinds only. */
  function ReadBody(kind: nat, length: nat, s: bytes, version: nat): (r: Option<(Option<Chunk>, bytes)>)
    ensures r.Some? ==> |r.value.1| <= |s|
  {
    if 1 <= kind <= 6 then
      var c :- if kind == DB_CHUNK_CFG then ReadConfig(s)
               else if kind == DB_CHUNK_MSG_STORE then ReadStore(s)
               else if kind == DB_CHUNK_CLIENT_MSG then ReadMsg(s)
               else if kind == DB_CHUNK_RETAIN then ReadRetain(s)
               else if kind == DB_CHUNK_SUB then ReadSub(s)
               else ReadClient(s, version);
      Some((Some(c.0), c.1))
    else Some((None, if length <= |s| then s[length..] else []))
  }

  function ReadChunk(s: bytes, version: nat): (r: Option<(Option<Chunk>, bytes)>)
    ensures r.Some? ==> |r.value.1| < |s|
  {
    var kind :- TakeU16(s);
    var length :- TakeU32(kind.1);
    ReadBody(kind.0, length.0, length.1, version)
  }

  // ----- what is written is what is read -----

  lemma ConfigBack(c: Chunk, rest: bytes)
    requires Storable(c) && c.Config?
    ensures ReadConfig(Body(c) + rest) == Some((c, rest))
  {
    var b: byte := if c.shutdown then 1 else 0;
    assert Body(c) + rest == [b] + ([8] + (U64(c.lastId) + rest));
    TakeByteBack(b, [8] + (U64(c.lastId) + rest));
    TakeByteBack(8, U64(c.lastId) + rest);
    TakeU64Back(c.lastId, rest);
  }

  lemma StoreBack(c: Chunk, rest: bytes)
    requires Storable(c) && c.StoreChunk?
    ensures ReadStore(Body(c) + rest) == Some((c, rest))
  {
    hide TakeU64, TakeString, TakeU16, TakeByte, TakeU32, TakeBytes, U64, U32, U16, Str;
    var s9 := c.payload + rest;
    var s8 := U32(|c.payload|) + s9;
    var s7 := [c.retain] + s8;
    var s6 := [c.qos] + s7;
    var s5 := Str(c.topic) + s6;
    var s4 := U16(c.mid) + s5;
    var s3 := U16(c.sourceMid) + s4;
    var s2 := Str(c.sourceId) + s3;
    assert Body(c) + rest == U64(c.id) + s2;
    TakeU64Back(c.id, s2);
    TakeStringBack(c.sourceId, s3);
    TakeU16Back(c.sourceMid, s4);
    TakeU16Back(c.mid, s5);
    TakeStringBack(c.topic, s6);
    TakeByteBack(c.qos, s7);
    TakeByteBack(c.retain, s8);
    TakeU32Back(|c.payload|, s9);
    TakeBytesBack(c.payload, rest);
  }

  lemma MsgBack(c: Chunk, rest: bytes)
    requires Storable(c) && c.MsgChunk?
    ensures ReadMsg(Body(c) + rest) == Some((c, rest))
  {
    hide TakeU64, TakeString, TakeU16, TakeByte, U64, U16, Str;
    var s7 := [c.dup] + rest;
    var s6 := [c.state] + s7;
    var s5 := [c.direction] + s6;
    var s4 := [c.retain] + s5;
    var s3 := [c.qos] + s4;
    var s2 := U16(c.mid) + s3;
    var s1 := U64(c.store) + s2;
    assert Body(c) + rest == Str(c.client) + s1;
    TakeStringBack(c.client, s1);
    TakeU64Back(c.store, s2);
    TakeU16Back(c.mid, s3);
    TakeByteBack(c.qos, s4);
    TakeByteBack(c.retain, s5);
    TakeByteBack(c.direction, s6);
    TakeByteBack(c.state, s7);
    TakeByteBack(c.dup, rest);
  }

  lemma SubBack(c: Chunk, rest: bytes)
    requires Storable(c) && c.SubChunk?
    ensures ReadSub(Body(c) + rest) == Some((c, rest))
  {
    hide TakeString, TakeByte, Str;
    var s2 := [c.qos] + rest;
    var s1 := Str(c.topic) + s2;
    assert Body(c) + rest == Str(c.client) + s1;
    TakeStringBack(c.client, s1);
    TakeStringBack(c.topic, s2);
    TakeByteBack(c.qos, rest);
  }

  lemma ClientBack(c: Chunk, rest: bytes)
    requires Storable(c) && c.ClientChunk?
    ensures ReadClient(Body(c) + rest, DB_VERSION) == Some((c, rest))
  {
    hide TakeU64, TakeString, TakeU16, U64, U16, Str;
    var s2 := U64(c.disconnected) + rest;
    var s1 := U16(c.lastMid) + s2;
    assert Body(c) + rest == Str(c.client) + s1;
    TakeStringBack(c.client, s1);
    TakeU16Back(c.lastMid, s2);
    TakeU64Back(c.disconnected, rest);
  }

  /** A chunk is read back as it was written, whatever follows it. */
  lemma ChunkRoundTrip(c: Chunk, rest: bytes)
    requires Storable(c) && |Body(c)| < TWO32
    ensures ReadChunk(EncodeChunk(c) + rest, DB_VERSION) == Some((Some(c), rest))
  {
    hide ReadConfig, ReadStore, ReadMsg, ReadSub, ReadClient, TakeU16, TakeU32, U16, U32, Body, Storable;
    var s2 := Body(c) + rest;
    var s1 := U32(|Body(c)|) + s2;
    assert EncodeChunk(c) + rest == U16(Kind(c)) + s1;
    TakeU16Back(Kind(c), s1);
    TakeU32Back(|Body(c)|, s2);
    match c {
      case Config(_, _) => ConfigBack(c, rest);
      case StoreChunk(_, _, _, _, _, _, _, _) => StoreBack(c, rest);
      case MsgChunk(_, _, _, _, _, _, _, _) => MsgBack(c, rest);
      case RetainChunk(store) => RetainBack(c, rest);
      case SubChunk(_, _, _) => SubBack(c, rest);
      case ClientChunk(_, _, _) => ClientBack(c, rest);
    }
  }

  lemma RetainBack(c: Chunk, rest: bytes)
    requires Storable(c) && c.RetainChunk?
    ensures ReadRetain(Body(c) + rest) == Some((c, rest))
  {
    TakeU64Back(c.store, rest);
  }

  // ----- whole files -----

  /** The chunks of a file, up to its end or to the first one that cannot be read. */
  datatype Contents = Contents(chunks: seq<Chunk>, intact: bool)

  function ReadAll(s: bytes, version: nat): Contents
    decreases |s|
  {
    if |s| < 2 then Contents([], true)
    else
      var c := ReadChunk(s, version);
      if c.None? then Contents([], false)
      else
        var rest := ReadAll(c.value.1, version);
        Contents((if c.value.0.Some? then [c.value.0.value] else []) + rest.chunks, rest.intact)
  }

  function Header(): bytes {
    MAGIC + U32(0) + U32(DB_VERSION)
  }

  predicate AllStorable(cs: seq<Chunk>) {
    forall i | 0 <= i < |cs| :: Storable(cs[i]) && |Body(cs[i])| < TWO32
  }

  function EncodeChunks(cs: seq<Chunk>): bytes
    requires AllStorable(cs)
  {
    if cs == [] then [] else EncodeChunk(cs[0]) + EncodeChunks(cs[1..])
  }

  lemma {:induction false} FileRoundTrip(cs: seq<Chunk>)
    requires AllStorable(cs)
    ensures ReadAll(EncodeChunks(cs), DB_VERSION) == Contents(cs, true)
    decreases |cs|
  {
    hide ReadChunk, Body, Storable;
    if cs != [] {
      FileRoundTrip(cs[1..]);
      ChunkRoundTrip(cs[0], EncodeChunks(cs[1..]));
      assert cs == [cs[0]] + cs[1..];
    }
  }
}
