/**
 The packet wire format, version 1.0 (common/net/packet.h).

 `Encode` and `Decode` say what the format is, on byte strings.  The class
 `Data` holds the cursor-driven writer and reader of the source, proved
 against them; the lemmas relate the two directions.
 */
module PacketCodec {
  import opened Bytes
  import opened Options
  import opened Sequences

  datatype SideData = SideData(sdType: int, data: seq<byte>)

  /** The abstract value of a `Data`: media type and the fields of its packet. */
  datatype PacketData = PacketData(
    mediaType: int, pts: int, dts: int, payload: seq<byte>,
    streamIndex: int, flags: int, sideData: seq<SideData>, duration: int, pos: int)

  /** ABORTED stands for the LOG_IF(FATAL) exit. */
  datatype Status = OK | ERROR_NOT_ENOUGH | ERROR_ALLOC_FAIL | ABORTED

  datatype Decoded = Decoded(status: Status, data: PacketData)

  // ------------------------------------------------------------------ encoding

  function SidesSize(sd: seq<SideData>): nat {
    if sd == [] then 0 else SidesSize(sd[..|sd| - 1]) + 5 + |sd[|sd| - 1].data|
  }

  function ByteSize(p: PacketData): nat {
    (2 + 1 + 4) + (8 * 4 + 4 * 4) + |p.payload| + SidesSize(p.sideData)
  }

  function EncodeSide(sd: SideData): (s: seq<byte>)
    ensures |s| == 5 + |sd.data|
  {
    Digits(sd.sdType, 1) + Digits(|sd.data|, 4) + sd.data
  }

  function EncodeSides(sd: seq<SideData>): (s: seq<byte>)
    ensures |s| == SidesSize(sd)
  {
    if sd == [] then [] else EncodeSides(sd[..|sd| - 1]) + EncodeSide(sd[|sd| - 1])
  }

  /** Everything before the payload. */
  function Front(p: PacketData): (s: seq<byte>)
    ensures |s| == 27
  {
    [1, 0] + Digits(p.mediaType, 1) + Digits(ByteSize(p), 4)
    + Digits(p.pts, 8) + Digits(p.dts, 8) + Digits(|p.payload|, 4)
  }

  /** Between the payload and the side data. */
  function Middle(p: PacketData): (s: seq<byte>)
    ensures |s| == 12
  {
    Digits(p.streamIndex, 4) + Digits(p.flags, 4) + Digits(|p.sideData|, 4)
  }

  /** After the side data. */
  function Back(p: PacketData): (s: seq<byte>)
    ensures |s| == 16
  {
    Digits(p.duration, 8) + Digits(p.pos, 8)
  }

  function Encode(p: PacketData): (s: seq<byte>)
    ensures |s| == ByteSize(p)
  {
    Front(p) + p.payload + Middle(p) + EncodeSides(p.sideData) + Back(p)
  }

  // ------------------------------------------------------------------ decoding

  function ReadU(s: seq<byte>, off: nat, n: nat): nat
    requires off + n <= |s|
  {
    Value(s[off..off + n])
  }

  function ReadS(s: seq<byte>, off: nat, n: nat): int
    requires off + n <= |s|
  {
    Signed(ReadU(s, off, n), n)
  }

  /** The packet's side-data table holds one entry a type. */
  function AddSideData(table: seq<SideData>, x: SideData): seq<SideData> {
    if table == [] then [x]
    else if table[0].sdType == x.sdType then [x] + table[1..]
    else [table[0]] + AddSideData(table[1..], x)
  }

  /** Side-data blocks read so far, and where the cursor stands; !ok: an
      allocation of a negative size was asked for. */
  datatype Sides = Sides(ok: bool, end: nat, table: seq<SideData>)

  /** The reads of k side-data blocks from off on stay inside s. */
  predicate SidesInBounds(s: seq<byte>, off: nat, k: int)
    decreases k
  {
    k <= 0 ||
    (off + 5 <= |s| &&
     var size := ReadS(s, off + 1, 4);
     size < 0 || (off + 5 + size <= |s| && SidesInBounds(s, off + 5 + size, k - 1)))
  }

  function DecodeSides(s: seq<byte>, off: nat, k: int, table: seq<SideData>): Sides
    requires SidesInBounds(s, off, k)
    decreases k
  {
    if k <= 0 then Sides(true, off, table)
    else
      var size := ReadS(s, off + 1, 4);
      if size < 0 then Sides(false, off, table)
      else
        var block := SideData(ReadU(s, off, 1), s[off + 5..off + 5 + size]);
        DecodeSides(s, off + 5 + size, k - 1, AddSideData(table, block))
  }

  /** The slot `pos` is read from, counted from the slot of `duration`: the
      source reads both from the same place, the format table puts them 8 apart. */
  const AS_WRITTEN: nat := 0
  const AS_DOCUMENTED: nat := 8

  /** The fields an input announces lie inside it, as far as the reader follows
      them.  The source does not check this beyond the two length tests. */
  predicate InBounds(s: seq<byte>, d0: PacketData, gap: nat) {
    |s| < 7 || |s| < ReadU(s, 3, 4) ||
    (27 <= |s| &&
     var size := ReadS(s, 23, 4);
     size < 0 ||
     (39 + size <= |s| &&
      SidesInBounds(s, 39 + size, ReadS(s, 35 + size, 4)) &&
      var sides := DecodeSides(s, 39 + size, ReadS(s, 35 + size, 4), d0.sideData);
      sides.ok ==> sides.end + gap + 8 <= |s|))
  }

  /** What the reader returns and leaves in a `Data` holding d0. */
  function Decode(s: seq<byte>, d0: PacketData, gap: nat): Decoded
    requires InBounds(s, d0, gap)
  {
    if |s| < 7 then Decoded(ERROR_NOT_ENOUGH, d0)
    else
      var d1 := d0.(mediaType := ReadU(s, 2, 1));
      if |s| < ReadU(s, 3, 4) then Decoded(ERROR_NOT_ENOUGH, d1)
      else
        var size := ReadS(s, 23, 4);
        var d2 := d1.(pts := ReadS(s, 7, 8), dts := ReadS(s, 15, 8));
        if size < 0 then Decoded(ERROR_ALLOC_FAIL, d2)
        else
          var sides := DecodeSides(s, 39 + size, ReadS(s, 35 + size, 4), d0.sideData);
          var d3 := d2.(payload := s[27..27 + size], streamIndex := ReadS(s, 27 + size, 4),
                        flags := ReadS(s, 31 + size, 4), sideData := sides.table);
          if !sides.ok then Decoded(ERROR_ALLOC_FAIL, d3)
          else
            var d4 := d3.(duration := ReadS(s, sides.end, 8), pos := ReadS(s, sides.end + gap, 8));
            Decoded(if ReadU(s, 3, 4) == sides.end + 16 then OK else ABORTED, d4)
  }

  // -------------------------------------------------------- reading anything

  /** One read at the cursor; None: it touches an index outside s. */
  function TryU(s: seq<byte>, off: nat, n: nat): Option<nat> {
    if off + n <= |s| then Some(ReadU(s, off, n)) else None
  }

  function TryS(s: seq<byte>, off: nat, n: nat): Option<int> {
    if off + n <= |s| then Some(ReadS(s, off, n)) else None
  }

  function TryBlock(s: seq<byte>, off: nat, n: nat): Option<seq<byte>> {
    if off + n <= |s| then Some(s[off..off + n]) else None
  }

  /** The side-data loop on any bytes. */
  function TrySides(s: seq<byte>, off: nat, k: int, table: seq<SideData>): Option<Sides>
    decreases k
  {
    if k <= 0 then Some(Sides(true, off, table))
    else
      var sdType, size := TryU(s, off, 1), TryS(s, off + 1, 4);
      if sdType.None? || size.None? then None
      else if size.value < 0 then Some(Sides(false, off, table))
      else
        var data := TryBlock(s, off + 5, size.value);
        if data.None? then None
        else TrySides(s, off + 5 + size.value, k - 1, AddSideData(table, SideData(sdType.value, data.value)))
  }

  /** What the reader does with any bytes, read by read; None: one of its reads
      touches an index outside s. */
  function Read(s: seq<byte>, d0: PacketData, gap: nat): Option<Decoded> {
    if |s| < 7 then Some(Decoded(ERROR_NOT_ENOUGH, d0))
    else
      var mediaType, pkgSize := TryU(s, 2, 1), TryU(s, 3, 4);
      if mediaType.None? || pkgSize.None? then None
      else
        var d1 := d0.(mediaType := mediaType.value);
        if |s| < pkgSize.value then Some(Decoded(ERROR_NOT_ENOUGH, d1))
        else
          var pts, dts, size := TryS(s, 7, 8), TryS(s, 15, 8), TryS(s, 23, 4);
          if pts.None? || dts.None? || size.None? then None
          else ReadBody(s, d1.(pts := pts.value, dts := dts.value), gap, pkgSize.value, size.value)
  }

  /** From the payload on. */
  function ReadBody(s: seq<byte>, d: PacketData, gap: nat, pkgSize: nat, size: int): Option<Decoded> {
    if size < 0 then Some(Decoded(ERROR_ALLOC_FAIL, d))
    else
      var payload, pos := TryBlock(s, 27, size), 27 + size;
      var streamIndex, flags, elems := TryS(s, pos, 4), TryS(s, pos + 4, 4), TryS(s, pos + 8, 4);
      if payload.None? || streamIndex.None? || flags.None? || elems.None? then None
      else
        var e := d.(payload := payload.value, streamIndex := streamIndex.value, flags := flags.value);
        match TrySides(s, pos + 12, elems.value, d.sideData)
        case None => None
        case Some(sides) => ReadBack(s, e.(sideData := sides.table), gap, pkgSize, sides)
  }

  /** After the side data. */
  function ReadBack(s: seq<byte>, d: PacketData, gap: nat, pkgSize: nat, sides: Sides): Option<Decoded> {
    if !sides.ok then Some(Decoded(ERROR_ALLOC_FAIL, d))
    else
      var duration, pos := TryS(s, sides.end, 8), TryS(s, sides.end + gap, 8);
      if duration.None? || pos.None? then None
      else Some(Decoded(if pkgSize == sides.end + 16 then OK else ABORTED,
                        d.(duration := duration.value, pos := pos.value)))
  }

  lemma {:induction false} SidesOverrun(s: seq<byte>, off: nat, k: int, table: seq<SideData>)
    ensures TrySides(s, off, k, table) ==
            if SidesInBounds(s, off, k) then Some(DecodeSides(s, off, k, table)) else None
    decreases k
  {
    hide ReadU, ReadS, AddSideData;
    if k > 0 && off + 5 <= |s| {
      var size := ReadS(s, off + 1, 4);
      if size >= 0 && off + 5 + size <= |s| {
        var block := SideData(ReadU(s, off, 1), s[off + 5..off + 5 + size]);
        SidesOverrun(s, off + 5 + size, k - 1, AddSideData(table, block));
      }
    }
  }

  /** The reader stays inside its input exactly when the fields announced do, and
      then it does what Decode says; for every byte string. */
  lemma OverrunIff(s: seq<byte>, d0: PacketData, gap: nat)
    ensures Read(s, d0, gap) == if InBounds(s, d0, gap) then Some(Decode(s, d0, gap)) else None
  {
    hide ReadU, ReadS, DecodeSides, SidesInBounds, TrySides;
    if |s| >= 27 && |s| >= ReadU(s, 3, 4) {
      var size := ReadS(s, 23, 4);
      if size >= 0 && 39 + size <= |s| {
        SidesOverrun(s, 39 + size, ReadS(s, 35 + size, 4), d0.sideData);
      }
    }
  }

  /** Input that passes both length tests and is read past its end: seven bytes
      that announce a packet of seven, and any other shorter than the 27 bytes
      before the payload. */
  lemma ShortInputOverruns(s: seq<byte>, d0: PacketData, gap: nat)
    requires 7 <= |s| < 27 && ReadU(s, 3, 4) <= |s|
    ensures Read(s, d0, gap) == None
  {
    hide ReadU;
  }

  lemma SevenBytesOverrun()
    ensures var s: seq<byte> := [1, 0, 0, 0, 0, 0, 7];
      ReadU(s, 3, 4) == |s| && Read(s, Blank(), AS_WRITTEN) == None
  {
    var s: seq<byte> := [1, 0, 0, 0, 0, 0, 7];
    assert s[3..7] == Digits(7, 4) by {
      assert Digits(7, 1) == [7];
      DigitsAt(7, 4, 0); DigitsAt(7, 4, 1); DigitsAt(7, 4, 2); DigitsAt(7, 4, 3);
    }
    UnsignedRoundTrip(7, 4);
    ShortInputOverruns(s, Blank(), AS_WRITTEN);
  }

  // -------------------------------------------------- the writer and the reader

  lemma {:induction false} SidesSizeGrows(sd: seq<SideData>, i: nat)
    requires i <= |sd|
    ensures SidesSize(sd[..i]) <= SidesSize(sd)
  {
    if i < |sd| {
      SidesSizeGrows(sd[..|sd| - 1], i);
      assert sd[..|sd| - 1][..i] == sd[..i];
    } else {
      assert sd[..i] == sd;
    }
  }

  lemma VersionDigits()
    ensures [] + Digits(1, 1) + Digits(0, 1) == [1, 0]
  {
    assert Digits(1, 1) == [1] && Digits(0, 1) == [0];
  }

  /** A read at the cursor; None stands for the read past the end. */
  method GetU(s: seq<byte>, off: nat, n: nat) returns (v: Option<nat>)
    ensures v == TryU(s, off, n) == if off + n <= |s| then Some(ReadU(s, off, n)) else None
  {
    if off + n > |s| {
      return None;
    }
    var pattern := From(s, off, n);
    v := Some(pattern);
  }

  method GetS(s: seq<byte>, off: nat, n: nat) returns (v: Option<int>)
    ensures v == TryS(s, off, n) == if off + n <= |s| then Some(ReadS(s, off, n)) else None
  {
    if off + n > |s| {
      return None;
    }
    var pattern := From(s, off, n);
    v := Some(Signed(pattern, n));
  }

  /** Stores an integer at the cursor and moves the cursor past it; `log` holds
      the indices stored to so far. */
  method Put(bytes: array<byte>, pos: nat, v: int, n: nat, ghost log: seq<nat>)
    returns (next: nat, ghost writes: seq<nat>)
    requires pos + n <= bytes.Length && log == Range(0, pos)
    modifies bytes
    ensures next == pos + n && writes == Range(0, next)
    ensures bytes[..next] == old(bytes[..pos]) + Digits(v, n)
    ensures forall k :: next <= k < bytes.Length ==> bytes[k] == old(bytes[k])
  {
    var size, w := To(bytes, pos, v, n);
    next, writes := pos + size, log + w;
    RangeAppend(0, pos, n);
  }

  /** The same for a block of bytes. */
  method PutBlock(bytes: array<byte>, pos: nat, data: seq<byte>, ghost log: seq<nat>)
    returns (next: nat, ghost writes: seq<nat>)
    requires pos + |data| <= bytes.Length && log == Range(0, pos)
    modifies bytes
    ensures next == pos + |data| && writes == Range(0, next)
    ensures bytes[..next] == old(bytes[..pos]) + data
    ensures forall k :: next <= k < bytes.Length ==> bytes[k] == old(bytes[k])
  {
    var size, w := CopyTo(bytes, pos, data);
    next, writes := pos + size, log + w;
    RangeAppend(0, pos, |data|);
  }

  /** One side-data block: type, size, data. */
  method WriteSide(bytes: array<byte>, pos: nat, sd: SideData, ghost log: seq<nat>)
    returns (next: nat, ghost writes: seq<nat>)
    requires pos + 5 + |sd.data| <= bytes.Length && log == Range(0, pos)
    modifies bytes
    ensures next == pos + 5 + |sd.data| && writes == Range(0, next)
    ensures bytes[..next] == old(bytes[..pos]) + EncodeSide(sd)
    ensures forall k :: next <= k < bytes.Length ==> bytes[k] == old(bytes[k])
  {
    ghost var head, t, n := bytes[..pos], Digits(sd.sdType, 1), Digits(|sd.data|, 4);
    next, writes := Put(bytes, pos, sd.sdType, 1, log);
    next, writes := Put(bytes, next, |sd.data|, 4, writes);
    Assoc(head, t, n);
    next, writes := PutBlock(bytes, next, sd.data, writes);
    Assoc(head, t + n, sd.data);
  }

  /** The side-data loop of the writer. */
  method WriteSides(bytes: array<byte>, pos: nat, sd: seq<SideData>, ghost log: seq<nat>)
    returns (next: nat, ghost writes: seq<nat>)
    requires pos + SidesSize(sd) <= bytes.Length && log == Range(0, pos)
    modifies bytes
    ensures next == pos + SidesSize(sd) && writes == Range(0, next)
    ensures bytes[..next] == old(bytes[..pos]) + EncodeSides(sd)
    ensures forall k :: next <= k < bytes.Length ==> bytes[k] == old(bytes[k])
  {
    next, writes := pos, log;
    for i := 0 to |sd|
      invariant next == pos + SidesSize(sd[..i]) <= pos + SidesSize(sd)
      invariant bytes[..next] == old(bytes[..pos]) + EncodeSides(sd[..i])
      invariant forall k :: next <= k < bytes.Length ==> bytes[k] == old(bytes[k])
      invariant writes == Range(0, next)
    {
      assert sd[..i + 1][..i] == sd[..i];
      SidesSizeGrows(sd, i + 1);
      next, writes := WriteSide(bytes, next, sd[i], writes);
      Assoc(old(bytes[..pos]), EncodeSides(sd[..i]), EncodeSide(sd[i]));
    }
    assert sd[..|sd|] == sd;
  }

  /** A buffer whose first n bytes have been written over a vector. */
  lemma TailStays(b: seq<byte>, e: seq<byte>, v: seq<byte>, n: nat)
    requires |e| == n && |b| == if |v| < n then n else |v|
    requires b[..n] == e && forall k :: n <= k < |b| ==> b[k] == v[k]
    ensures b == e + (if |v| > n then v[n..] else [])
  {
    assert b == b[..n] + b[n..];
  }

  class AVPacket {
    var pts: int
    var dts: int
    var payload: seq<byte>
    var streamIndex: int
    var flags: int
    var sideData: seq<SideData>
    var duration: int
    var pos: int

    constructor ()
      ensures fresh(this)
      ensures pts == dts == AV_NOPTS_VALUE && payload == [] && streamIndex == flags == 0
      ensures sideData == [] && duration == 0 && pos == -1
    {
      pts, dts := AV_NOPTS_VALUE, AV_NOPTS_VALUE;
      payload, streamIndex, flags, sideData, duration, pos := [], 0, 0, [], 0, -1;
    }
  }

  const AVMEDIA_TYPE_UNKNOWN: int := -1
  const AV_NOPTS_VALUE: int := -0x8000_0000_0000_0000

  class Data {
    var mediaType: int
    const packet: AVPacket

    ghost function Value(): PacketData
      reads this, packet
    {
      PacketData(mediaType, packet.pts, packet.dts, packet.payload, packet.streamIndex,
                 packet.flags, packet.sideData, packet.duration, packet.pos)
    }

    constructor ()
      ensures fresh(packet)
      ensures Value() == Blank()
    {
      mediaType := AVMEDIA_TYPE_UNKNOWN;
      packet := new AVPacket();
    }

    method GetByteSize() returns (n: nat)
      ensures n == ByteSize(Value())
    {
      var sd := packet.sideData;
      n := (2 + 1 + 4) + (8 * 4 + 4 * 4) + |packet.payload|;
      for i := 0 to |sd|
        invariant n == 7 + 48 + |packet.payload| + SidesSize(sd[..i])
      {
        assert sd[..i + 1][..i] == sd[..i];
        n := n + 5 + |sd[i].data|;
      }
      assert sd[..|sd|] == sd;
    }

    /** Writes the encoding at the start of the buffer, each byte once and in
        order, and nothing beyond it. */
    method ToBytes(bytes: array<byte>) returns (status: Status, ghost writes: seq<nat>)
      modifies bytes
      ensures bytes.Length < ByteSize(Value()) ==>
                status == ERROR_NOT_ENOUGH && bytes[..] == old(bytes[..]) && writes == []
      ensures bytes.Length >= ByteSize(Value()) ==>
                status == OK && bytes[..ByteSize(Value())] == Encode(Value())
                && writes == Range(0, ByteSize(Value()))
      ensures forall k :: ByteSize(Value()) <= k < bytes.Length ==> bytes[k] == old(bytes[k])
    {
      var pkgSize := GetByteSize();
      if bytes.Length < pkgSize {
        return ERROR_NOT_ENOUGH, [];
      }
      var pos: nat;
      pos, writes := WriteFront(bytes, pkgSize);
      pos, writes := WriteRest(bytes, pos, writes);
      status := if pkgSize != pos then ABORTED else OK;
    }

    method WriteFront(bytes: array<byte>, pkgSize: nat) returns (pos: nat, ghost writes: seq<nat>)
      requires bytes.Length >= pkgSize == ByteSize(Value())
      modifies bytes
      ensures pos == 27 && bytes[..pos] == Front(Value())
      ensures forall k :: pos <= k < bytes.Length ==> bytes[k] == old(bytes[k])
      ensures writes == Range(0, pos)
    {
      pos, writes := Put(bytes, 0, 1, 1, []);
      pos, writes := Put(bytes, pos, 0, 1, writes);
      VersionDigits();
      pos, writes := Put(bytes, pos, mediaType, 1, writes);
      pos, writes := Put(bytes, pos, pkgSize, 4, writes);
      pos, writes := Put(bytes, pos, packet.pts, 8, writes);
      pos, writes := Put(bytes, pos, packet.dts, 8, writes);
      pos, writes := Put(bytes, pos, |packet.payload|, 4, writes);
    }

    method WriteRest(bytes: array<byte>, start: nat, ghost log: seq<nat>) returns (pos: nat, ghost writes: seq<nat>)
      requires start == 27 && bytes.Length >= ByteSize(Value())
      requires bytes[..start] == Front(Value()) && log == Range(0, start)
      modifies bytes
      ensures pos == ByteSize(Value()) && bytes[..pos] == Encode(Value())
      ensures forall k :: pos <= k < bytes.Length ==> bytes[k] == old(bytes[k])
      ensures writes == Range(0, pos)
    {
      pos, writes := PutBlock(bytes, start, packet.payload, log);
      pos, writes := WriteMiddle(bytes, pos, writes);
      pos, writes := WriteSides(bytes, pos, packet.sideData, writes);
      pos, writes := WriteBack(bytes, pos, writes);
    }

    method WriteMiddle(bytes: array<byte>, start: nat, ghost log: seq<nat>)
      returns (pos: nat, ghost writes: seq<nat>)
      requires start + 12 <= bytes.Length && log == Range(0, start)
      modifies bytes
      ensures pos == start + 12 && writes == Range(0, pos)
      ensures bytes[..pos] == old(bytes[..start]) + Middle(Value())
      ensures forall k :: pos <= k < bytes.Length ==> bytes[k] == old(bytes[k])
    {
      ghost var head := bytes[..start];
      ghost var a, b, c := Digits(packet.streamIndex, 4), Digits(packet.flags, 4), Digits(|packet.sideData|, 4);
      pos, writes := Put(bytes, start, packet.streamIndex, 4, log);
      pos, writes := Put(bytes, pos, packet.flags, 4, writes);
      Assoc(head, a, b);
      pos, writes := Put(bytes, pos, |packet.sideData|, 4, writes);
      Assoc(head, a + b, c);
    }

    method WriteBack(bytes: array<byte>, start: nat, ghost log: seq<nat>)
      returns (pos: nat, ghost writes: seq<nat>)
      requires start + 16 <= bytes.Length && log == Range(0, start)
      modifies bytes
      ensures pos == start + 16 && writes == Range(0, pos)
      ensures bytes[..pos] == old(bytes[..start]) + Back(Value())
      ensures forall k :: pos <= k < bytes.Length ==> bytes[k] == old(bytes[k])
    {
      pos, writes := Put(bytes, start, packet.duration, 8, log);
      pos, writes := Put(bytes, pos, packet.pos, 8, writes);
      Assoc(old(bytes[..start]), Digits(packet.duration, 8), Digits(packet.pos, 8));
    }

    /** The vector form: a vector that is too short is grown to the encoded size,
        a longer one keeps its tail. */
    method ToVector(v: seq<byte>) returns (bytes: array<byte>)
      ensures fresh(bytes)
      ensures bytes[..] == Encode(Value()) + (if |v| > ByteSize(Value()) then v[ByteSize(Value())..] else [])
    {
      hide Encode, ByteSize;
      var n := GetByteSize();
      bytes := new byte[if |v| < n then n else |v|](i => if 0 <= i < |v| then v[i] else 0);
      var status, w := ToBytes(bytes);
      TailStays(bytes[..], Encode(Value()), v, n);
    }

    /** The reader, as written: `duration` and `pos` from one place.  None: it has
        read past the end of its input, which is undefined in the source. */
    method FromBytes(bytes: seq<byte>) returns (status: Option<Status>)
      modifies this, packet
      ensures status.None? <==> Read(bytes, old(Value()), AS_WRITTEN).None?
      ensures status.Some? ==> Read(bytes, old(Value()), AS_WRITTEN) == Some(Decoded(status.value, Value()))
      ensures |bytes| < 7 ==> Value() == old(Value())
      ensures status == Some(ERROR_NOT_ENOUGH) <==> |bytes| < 7 || |bytes| < ReadU(bytes, 3, 4)
      ensures 7 <= |bytes| < ReadU(bytes, 3, 4) ==> Value() == old(Value()).(mediaType := ReadU(bytes, 2, 1))
      ensures status.Some? && 27 <= |bytes| && ReadU(bytes, 3, 4) <= |bytes| && ReadS(bytes, 23, 4) < 0 ==>
                && status == Some(ERROR_ALLOC_FAIL)
                && Value() == old(Value()).(mediaType := ReadU(bytes, 2, 1),
                                            pts := ReadS(bytes, 7, 8), dts := ReadS(bytes, 15, 8))
    {
      hide TryU, TryS, ReadBody;
      if |bytes| < 7 {
        return Some(ERROR_NOT_ENOUGH);
      }
      var t := GetU(bytes, 2, 1);
      var pkgSize := GetU(bytes, 3, 4);
      if t.None? || pkgSize.None? { return None; }
      mediaType := t.value;
      if |bytes| < pkgSize.value {
        return Some(ERROR_NOT_ENOUGH);
      }
      var pts := GetS(bytes, 7, 8);
      var dts := GetS(bytes, 15, 8);
      var size := GetS(bytes, 23, 4);
      if pts.None? || dts.None? || size.None? { return None; }
      packet.pts, packet.dts := pts.value, dts.value;
      status := FromBody(bytes, pkgSize.value, size.value);
    }

    method FromBody(bytes: seq<byte>, pkgSize: nat, size: int) returns (status: Option<Status>)
      modifies packet
      ensures status.None? <==> ReadBody(bytes, old(Value()), AS_WRITTEN, pkgSize, size).None?
      ensures status.Some? ==>
                ReadBody(bytes, old(Value()), AS_WRITTEN, pkgSize, size) == Some(Decoded(status.value, Value()))
      ensures size < 0 ==> status == Some(ERROR_ALLOC_FAIL) && Value() == old(Value())
      ensures status != Some(ERROR_NOT_ENOUGH)
    {
      hide TryU, TryS, TrySides;
      if size < 0 {
        return Some(ERROR_ALLOC_FAIL);
      }
      if 27 + size > |bytes| { return None; }
      packet.payload := bytes[27..27 + size];
      var pos: nat := 27 + size;
      var streamIndex := GetS(bytes, pos, 4);
      var flags := GetS(bytes, pos + 4, 4);
      var elems := GetS(bytes, pos + 8, 4);
      if streamIndex.None? || flags.None? || elems.None? { return None; }
      packet.streamIndex, packet.flags := streamIndex.value, flags.value;
      var ok := ReadSides(bytes, pos + 12, elems.value);
      if ok.None? { return None; }
      if !ok.value.0 {
        return Some(ERROR_ALLOC_FAIL);
      }
      pos := ok.value.1;
      var duration := GetS(bytes, pos, 8);
      var position := GetS(bytes, pos, 8);
      if duration.None? || position.None? { return None; }
      packet.duration, packet.pos := duration.value, position.value;
      pos := pos + 16;
      status := Some(if pkgSize != pos then ABORTED else OK);
    }

    /** The side-data loop of the reader: whether the allocations succeeded, and
        where the cursor stands. */
    method ReadSides(bytes: seq<byte>, start: nat, elems: int) returns (r: Option<(bool, nat)>)
      modifies packet`sideData
      ensures r.None? <==> TrySides(bytes, start, elems, old(packet.sideData)).None?
      ensures r.Some? ==>
                TrySides(bytes, start, elems, old(packet.sideData)) == Some(Sides(r.value.0, r.value.1, packet.sideData))
    {
      hide TryU, TryS, AddSideData, Value;
      var pos: nat := start;
      var i := 0;
      while i < elems
        invariant 0 <= i && (i <= elems || i == 0)
        invariant TrySides(bytes, pos, elems - i, packet.sideData)
               == TrySides(bytes, start, elems, old(packet.sideData))
      {
        var t := GetU(bytes, pos, 1);
        var size := GetS(bytes, pos + 1, 4);
        if t.None? || size.None? { return None; }
        if size.value < 0 {
          return Some((false, pos));
        }
        if pos + 5 + size.value > |bytes| { return None; }
        var data := bytes[pos + 5..pos + 5 + size.value];
        packet.sideData := AddSideData(packet.sideData, SideData(t.value, data));
        pos := pos + 5 + size.value;
        i := i + 1;
      }
      return Some((true, pos));
    }
  }

  function Blank(): PacketData {
    PacketData(AVMEDIA_TYPE_UNKNOWN, AV_NOPTS_VALUE, AV_NOPTS_VALUE, [], 0, 0, [], 0, -1)
  }
}
