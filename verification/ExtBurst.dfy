/** Extended burst transfers: 8-byte blocks, each prefixed by the 4-byte id of the receiving device. */
module ExtBurst {
  import opened CentralTypes

  const BLOCK := 8
  const PACKET := 12
  const MAX_ARRAY_LENGTH := 0x7FFF_FFFF

  // Message ids that carry data (ANT_ReferenceLibrary)
  const BROADCAST_DATA := 0x4E
  const ACKNOWLEDGED_DATA := 0x4F
  const BURST_DATA := 0x50
  const EXT_BROADCAST_DATA := 0x5D
  const EXT_ACKNOWLEDGED_DATA := 0x5E
  const EXT_BURST_DATA := 0x5F

  /** Zero bytes up to a multiple of eight. */
  function Pad(data: seq<byte>): (padded: seq<byte>)
    ensures |padded| % 8 == 0 && |padded| < |data| + 8
    ensures data <= padded && forall i :: |data| <= i < |padded| ==> padded[i] == 0
  {
    var padNum := BLOCK - |data| % BLOCK;
    if padNum != BLOCK then data + seq(padNum, _ => 0) else data
  }

  type word = x: int | 0 <= x < 0x1_0000

  function IdBytes(device: word, deviceType: byte, transmitType: byte): seq<byte> {
    [device % 256, device / 256, deviceType, transmitType]
  }

  function Blocks(n: nat): nat {
    (n + BLOCK - 1) / BLOCK
  }

  function Min(a: int, b: int): int {
    if a < b then a else b
  }

  /** The first `k` packets hold the id and their share of the data; a short last block leaves its end unspecified. */
  ghost predicate Framed(out: seq<byte>, id: seq<byte>, data: seq<byte>, k: nat)
    requires |id| == 4
  {
    && PACKET * k <= |out|
    && BLOCK * (k - 1) <= |data|
    && forall i :: 0 <= i < k ==> FramedAt(out, id, data, i)
  }

  ghost predicate FramedAt(out: seq<byte>, id: seq<byte>, data: seq<byte>, i: nat)
    requires |id| == 4
  {
    && PACKET * i + PACKET <= |out| && BLOCK * i <= |data|
    && out[PACKET * i..PACKET * i + 4] == id
    && (var share := Min(BLOCK, |data| - BLOCK * i);
        out[PACKET * i + 4..PACKET * i + 4 + share] == data[BLOCK * i..BLOCK * i + share])
  }

  /** The buffer size, computed in 32-bit arithmetic. */
  function ExtSize(n: nat): nat {
    var whole := n / BLOCK * PACKET % 0x1_0000_0000;
    if n % BLOCK != 0 then (whole + PACKET) % 0x1_0000_0000 else whole
  }

  /** No array length makes the size wrap: there is a packet for every started block. */
  lemma ExtSizeExact(n: nat)
    requires n <= MAX_ARRAY_LENGTH + BLOCK
    ensures ExtSize(n) == PACKET * Blocks(n)
  {
    var q, r := n / BLOCK, n % BLOCK;
    assert n == BLOCK * q + r;
    assert Blocks(n) == if r == 0 then q else q + 1;
  }

  lemma BlockStarts(n: nat, i: nat)
    requires i < Blocks(n)
    ensures BLOCK * i < n
  {
  }

  method ExpandBurst(device: word, deviceType: byte, transmitType: byte, data: seq<byte>) returns (out: seq<byte>)
    requires |data| <= MAX_ARRAY_LENGTH + BLOCK
    ensures |out| == PACKET * Blocks(|data|)
    ensures Framed(out, IdBytes(device, deviceType, transmitType), data, Blocks(|data|))
  {
    ghost var id := IdBytes(device, deviceType, transmitType);
    ghost var k := Blocks(|data|);
    ExtSizeExact(|data|);
    var extSize := ExtSize(|data|);
    var buffer := new byte[extSize];
    var i := 0;
    while i < extSize / PACKET
      invariant 0 <= i <= k
      invariant Framed(buffer[..], id, data, i)
    {
      ghost var before := buffer[..];
      BlockStarts(|data|, i);
      FillBlock(buffer, device, deviceType, transmitType, data, i);
      KeepFramed(before, buffer[..], id, data, i);
      i := i + 1;
    }
    out := buffer[..];
  }

  /** Writes the `i`th packet: four id bytes, then eight data bytes or those that remain. */
  method FillBlock(buffer: array<byte>, device: word, deviceType: byte, transmitType: byte, data: seq<byte>, i: nat)
    requires PACKET * i + PACKET <= buffer.Length && BLOCK * i <= |data|
    modifies buffer
    ensures buffer[..PACKET * i] == old(buffer[..PACKET * i])
    ensures FramedAt(buffer[..], IdBytes(device, deviceType, transmitType), data, i)
  {
    var cur := PACKET * i;
    buffer[cur] := device % 256;
    buffer[cur + 1] := device / 256 % 256;
    buffer[cur + 2] := deviceType;
    buffer[cur + 3] := transmitType;
    var count := Min(BLOCK, |data| - BLOCK * i);
    var j := 0;
    while j < count
      invariant 0 <= j <= count
      invariant buffer[..cur] == old(buffer[..cur])
      invariant buffer[cur..cur + 4] == IdBytes(device, deviceType, transmitType)
      invariant buffer[cur + 4..cur + 4 + j] == data[BLOCK * i..BLOCK * i + j]
    {
      ghost var copied := buffer[cur + 4..cur + 4 + j];
      buffer[cur + 4 + j] := data[BLOCK * i + j];
      assert buffer[cur + 4..cur + 4 + j] == copied;
      assert buffer[cur + 4..cur + 4 + j + 1] == copied + [data[BLOCK * i + j]];
      j := j + 1;
    }
  }

  lemma SameSlice(a: seq<byte>, b: seq<byte>, n: nat, lo: nat, hi: nat)
    requires n <= |a| && n <= |b| && a[..n] == b[..n] && lo <= hi <= n
    ensures a[lo..hi] == b[lo..hi]
  {
    assert a[lo..hi] == a[..n][lo..hi];
    assert b[lo..hi] == b[..n][lo..hi];
  }

  lemma KeepFramed(before: seq<byte>, after: seq<byte>, id: seq<byte>, data: seq<byte>, k: nat)
    requires |id| == 4 && Framed(before, id, data, k)
    requires |after| == |before| && after[..PACKET * k] == before[..PACKET * k]
    ensures Framed(after, id, data, k)
  {
    forall i | 0 <= i < k
      ensures FramedAt(after, id, data, i)
    {
      assert FramedAt(before, id, data, i);
      SameSlice(before, after, PACKET * k, PACKET * i, PACKET * i + 4);
      SameSlice(before, after, PACKET * k, PACKET * i + 4, PACKET * i + 4 + Min(BLOCK, |data| - BLOCK * i));
    }
  }

  // ---- reading a received message ----

  /** `Truncated`: an index past the end of the id bytes. */
  datatype Result<+T> = Ok(value: T) | NotExtended | NoChannelId | Truncated

  datatype Response = Response(id: byte, contents: seq<byte>)

  datatype Parts = Parts(payload: seq<byte>, deviceId: seq<byte>)

  datatype ChannelId = ChannelId(deviceNumber: int, pairing: bool, deviceType: byte, transmitType: byte)

  function Skip(s: seq<byte>, n: nat): seq<byte> {
    if n <= |s| then s[n..] else []
  }

  function Take(s: seq<byte>, n: nat): seq<byte> {
    if n <= |s| then s[..n] else s
  }

  function SplitExtMessage(r: Response): Result<Parts> {
    if |r.contents| < 13 then NotExtended
    else if r.id == EXT_BROADCAST_DATA || r.id == EXT_ACKNOWLEDGED_DATA || r.id == EXT_BURST_DATA then
      Ok(Parts(Take(Skip(r.contents, 5), 8), Take(Skip(r.contents, 1), 4)))
    else if r.id == BROADCAST_DATA || r.id == ACKNOWLEDGED_DATA || r.id == BURST_DATA then
      if r.contents[9] < 0x80 then NoChannelId  // the flag byte's top bit is clear
      else Ok(Parts(Take(Skip(r.contents, 1), 8), Take(Skip(r.contents, 10), 4)))
    else NotExtended
  }

  function DataPayload(r: Response): Result<seq<byte>> {
    if |r.contents| == 9 && (r.id == BROADCAST_DATA || r.id == ACKNOWLEDGED_DATA || r.id == BURST_DATA) then
      Ok(Skip(r.contents, 1))
    else
      match SplitExtMessage(r)
      case Ok(parts) => Ok(parts.payload)
      case NotExtended => NotExtended
      case NoChannelId => NoChannelId
      case Truncated => Truncated
  }

  /** The id's third byte holds the pairing bit on top of the device type. */
  function DeviceId(r: Response): Result<ChannelId> {
    match SplitExtMessage(r)
    case Ok(parts) =>
      var raw := parts.deviceId;
      if |raw| < 4 then Truncated
      else Ok(ChannelId(raw[0] as int + raw[1] as int * 256, raw[2] >= 0x80, raw[2] % 0x80, raw[3]))
    case NotExtended => NotExtended
    case NoChannelId => NoChannelId
    case Truncated => Truncated
  }

  // ---- the message formats ----

  /** A message that puts the id in front of the data. */
  lemma LegacyRoundTrip(id: byte, channel: byte, device: word, deviceType: byte, transmitType: byte,
                        data: seq<byte>, rest: seq<byte>)
    requires 0x5D <= id <= 0x5F && |data| == 8
    ensures var r := Response(id, [channel] + (IdBytes(device, deviceType, transmitType) + (data + rest)));
      && DeviceId(r) == Ok(ChannelId(device, deviceType >= 128, deviceType % 128, transmitType))
      && DataPayload(r) == Ok(data)
  {
    var raw := IdBytes(device, deviceType, transmitType);
    var contents := [channel] + (raw + (data + rest));
    assert Skip(contents, 1) == raw + (data + rest) && (raw + (data + rest))[..4] == raw;
    assert Skip(contents, 5) == data + rest && (data + rest)[..8] == data;
  }

  /** A message that appends a flag byte and, if its top bit is set, the id. */
  lemma FlaggedRoundTrip(id: byte, channel: byte, data: seq<byte>, flag: byte,
                         device: word, deviceType: byte, transmitType: byte, rest: seq<byte>)
    requires 0x4E <= id <= 0x50 && |data| == 8
    ensures var r := Response(id, [channel] + (data + ([flag] + (IdBytes(device, deviceType, transmitType) + rest))));
      if flag >= 128 then
        && DeviceId(r) == Ok(ChannelId(device, deviceType >= 128, deviceType % 128, transmitType))
        && DataPayload(r) == Ok(data)
      else
        DeviceId(r) == NoChannelId && DataPayload(r) == NoChannelId
  {
    var raw := IdBytes(device, deviceType, transmitType);
    var contents := [channel] + (data + ([flag] + (raw + rest)));
    assert contents[9] == flag;
    assert Skip(contents, 1) == data + ([flag] + (raw + rest)) && (data + ([flag] + (raw + rest)))[..8] == data;
    assert Take(Skip(contents, 10), 4) == raw by {
      assert Skip(contents, 10) == raw + rest && (raw + rest)[..4] == raw;
    }
  }

  /** A message without an id: its payload is read, and asking for the id fails. */
  lemma PlainRoundTrip(id: byte, channel: byte, data: seq<byte>)
    requires 0x4E <= id <= 0x50 && |data| == 8
    ensures var r := Response(id, [channel] + data);
      DataPayload(r) == Ok(data) && DeviceId(r) == NotExtended
  {
    assert Skip([channel] + data, 1) == data;
  }

  /** Only messages of these six ids with at least 13 bytes are extended; a flagged one needs 14 for its id. */
  lemma ExtendedIff(r: Response)
    ensures DeviceId(r) == NotExtended <==>
      |r.contents| < 13 || !(0x4E <= r.id <= 0x50 || 0x5D <= r.id <= 0x5F)
    ensures DeviceId(r) == Truncated <==> |r.contents| == 13 && 0x4E <= r.id <= 0x50 && r.contents[9] >= 128
  {
  }

  /** The id bytes of device 12345 of type 120, with pairing bit and transmission type 1. */
  lemma IdFormat()
    ensures IdBytes(12345, 0xF8, 1) == [0x39, 0x30, 0xF8, 1]
    ensures DeviceId(Response(0x5F, [0, 0x39, 0x30, 0xF8, 1, 0, 0, 0, 0, 0, 0, 0, 0])) ==
      Ok(ChannelId(12345, true, 120, 1))
  {
    var contents: seq<byte> := [0, 0x39, 0x30, 0xF8, 1, 0, 0, 0, 0, 0, 0, 0, 0];
    assert Take(Skip(contents, 1), 4) == [0x39, 0x30, 0xF8, 1];
  }

  // ---- round trip ----

  /** The `i`th packet as received: a channel byte and twelve bytes of contents. */
  function PacketAt(out: seq<byte>, channel: byte, i: nat): Response
    requires PACKET * i + PACKET <= |out|
  {
    Response(EXT_BURST_DATA, [channel] + out[PACKET * i..PACKET * i + PACKET])
  }

  function PayloadAt(out: seq<byte>, channel: byte, i: nat): seq<byte>
    requires PACKET * i + PACKET <= |out|
  {
    match DataPayload(PacketAt(out, channel, i))
    case Ok(payload) => payload
    case _ => []
  }

  /** The payloads of the first `k` packets, joined. */
  function Payloads(out: seq<byte>, channel: byte, k: nat): seq<byte>
    requires PACKET * k <= |out|
  {
    if k == 0 then [] else Payloads(out, channel, k - 1) + PayloadAt(out, channel, k - 1)
  }

  lemma PacketRoundTrip(out: seq<byte>, device: word, deviceType: byte, transmitType: byte,
                        data: seq<byte>, channel: byte, i: nat)
    requires BLOCK * i + BLOCK <= |data|
    requires FramedAt(out, IdBytes(device, deviceType, transmitType), data, i)
    ensures DeviceId(PacketAt(out, channel, i)) ==
      Ok(ChannelId(device, deviceType >= 0x80, deviceType % 0x80, transmitType))
    ensures DataPayload(PacketAt(out, channel, i)) == Ok(data[BLOCK * i..BLOCK * i + BLOCK])
  {
    var r := PacketAt(out, channel, i);
    var packet := out[PACKET * i..PACKET * i + PACKET];
    assert Take(Skip(r.contents, 1), 4) == out[PACKET * i..PACKET * i + 4] by {
      assert Skip(r.contents, 1) == packet;
      assert packet[..4] == out[PACKET * i..PACKET * i + 4];
    }
    assert Take(Skip(r.contents, 5), 8) == data[BLOCK * i..BLOCK * i + BLOCK] by {
      assert Skip(r.contents, 5) == packet[4..];
      assert packet[4..][..8] == out[PACKET * i + 4..PACKET * i + 4 + BLOCK];
    }
  }

  lemma SplitPrefix(data: seq<byte>, a: nat, b: nat)
    requires a <= b <= |data|
    ensures data[..b] == data[..a] + data[a..b]
  {
  }

  /** Payloads that are the blocks of some data join up to it. */
  lemma {:induction false} PayloadsJoin(out: seq<byte>, data: seq<byte>, channel: byte, k: nat)
    requires BLOCK * k <= |data| && PACKET * k <= |out|
    requires forall i :: 0 <= i < k ==> PayloadAt(out, channel, i) == data[BLOCK * i..BLOCK * i + BLOCK]
    ensures Payloads(out, channel, k) == data[..BLOCK * k]
  {
    if k > 0 {
      PayloadsJoin(out, data, channel, k - 1);
      SplitPrefix(data, BLOCK * (k - 1), BLOCK * k);
    }
  }

  /** Pads the data and expands it into packets. */
  method SendExtBurstTransfer(device: word, deviceType: byte, transmitType: byte, data: seq<byte>)
    returns (out: seq<byte>)
    requires |data| <= MAX_ARRAY_LENGTH
    ensures |out| == 12 * ((|data| + 7) / 8)
    ensures Framed(out, IdBytes(device, deviceType, transmitType), Pad(data), Blocks(|data|))
  {
    var padded := Pad(data);
    PaddedBlocks(data);
    out := ExpandBurst(device, deviceType, transmitType, padded);
  }

  lemma PaddedBlocks(data: seq<byte>)
    ensures |Pad(data)| == BLOCK * Blocks(|data|) && Blocks(|Pad(data)|) == Blocks(|data|)
  {
  }

  /**
   Reading back what a transfer sent: each packet names the same channel, and the
   payloads are the data followed by zeros.
   */
  lemma PacketsReadBack(out: seq<byte>, device: word, deviceType: byte, transmitType: byte,
                        data: seq<byte>, channel: byte)
    requires Framed(out, IdBytes(device, deviceType, transmitType), Pad(data), Blocks(|data|))
    ensures forall i :: 0 <= i < Blocks(|data|) ==>
      DeviceId(PacketAt(out, channel, i)) ==
        Ok(ChannelId(device, deviceType >= 0x80, deviceType % 0x80, transmitType))
    ensures Payloads(out, channel, Blocks(|data|)) == Pad(data)
  {
    var padded, k := Pad(data), Blocks(|data|);
    PaddedBlocks(data);
    forall i | 0 <= i < k
      ensures DeviceId(PacketAt(out, channel, i)) ==
        Ok(ChannelId(device, deviceType >= 0x80, deviceType % 0x80, transmitType))
      ensures PayloadAt(out, channel, i) == padded[BLOCK * i..BLOCK * i + BLOCK]
    {
      assert FramedAt(out, IdBytes(device, deviceType, transmitType), padded, i);
      PacketRoundTrip(out, device, deviceType, transmitType, padded, channel, i);
    }
    PayloadsJoin(out, padded, channel, k);
  }
}
