/**
 What the wire format promises: a packet survives the wire exactly under the
 conditions stated here, and an encoding shows where it ends.
 */
module PacketRoundTrip {
  import opened Bytes
  import opened PacketCodec
  import opened Sequences

  // ---------------------------------------------------------------- conditions

  /** The C types of the fields: 64-bit times, 32-bit ints, int sizes.  The two
      enumerations are not restricted here. */
  ghost predicate Representable(p: PacketData) {
    && FitsSigned(p.pts, 8) && FitsSigned(p.dts, 8)
    && FitsSigned(p.duration, 8) && FitsSigned(p.pos, 8)
    && FitsSigned(p.streamIndex, 4) && FitsSigned(p.flags, 4)
    && FitsSigned(|p.payload|, 4) && FitsSigned(|p.sideData|, 4)
    && SizesFit(p.sideData)
  }

  ghost predicate SizesFit(sd: seq<SideData>) {
    forall i :: 0 <= i < |sd| ==> FitsSigned(|sd[i].data|, 4)
  }

  /** Every type fits its byte and no type occurs twice. */
  ghost predicate OneEntryAType(sd: seq<SideData>) {
    && (forall i :: 0 <= i < |sd| ==> 0 <= sd[i].sdType < 256)
    && (forall i, j :: 0 <= i < j < |sd| ==> sd[i].sdType != sd[j].sdType)
  }

  // ------------------------------------------------------- side-data table

  function Truncated(x: SideData): SideData {
    x.(sdType := x.sdType % 256)
  }

  /** The table after reading the blocks of sd, in order. */
  function AddAll(table: seq<SideData>, sd: seq<SideData>): seq<SideData>
    decreases |sd|
  {
    if sd == [] then table else AddAll(AddSideData(table, Truncated(sd[0])), sd[1..])
  }

  ghost predicate HasType(sd: seq<SideData>, t: int) {
    exists i :: 0 <= i < |sd| && sd[i].sdType == t
  }

  /** Reading a block adds its type and no other. */
  lemma {:induction false} AddHasType(table: seq<SideData>, x: SideData, t: int)
    requires HasType(AddSideData(table, x), t)
    ensures t == x.sdType || HasType(table, t)
  {
    var a := AddSideData(table, x);
    var i :| 0 <= i < |a| && a[i].sdType == t;
    if i == 0 || table == [] {
    } else if table[0].sdType == x.sdType {
      assert a[i] == table[i];
    } else {
      assert a[i] == AddSideData(table[1..], x)[i - 1];
      AddHasType(table[1..], x, t);
      if t != x.sdType {
        var j :| 0 <= j < |table[1..]| && table[1..][j].sdType == t;
        assert table[j + 1].sdType == t;
      }
    }
  }

  lemma {:induction false} AddKeepsOneEntry(table: seq<SideData>, x: SideData)
    requires OneEntryAType(table) && 0 <= x.sdType < 256
    ensures OneEntryAType(AddSideData(table, x))
  {
    if table != [] && table[0].sdType != x.sdType {
      var r := AddSideData(table[1..], x);
      AddKeepsOneEntry(table[1..], x);
      forall i | 0 <= i < |r| ensures r[i].sdType != table[0].sdType {
        AddHasType(table[1..], x, r[i].sdType);
      }
    }
  }

  lemma {:induction false} AddAllKeepsOneEntry(table: seq<SideData>, sd: seq<SideData>)
    requires OneEntryAType(table)
    ensures OneEntryAType(AddAll(table, sd))
    decreases |sd|
  {
    if sd == [] {
    } else {
      AddKeepsOneEntry(table, Truncated(sd[0]));
      AddAllKeepsOneEntry(AddSideData(table, Truncated(sd[0])), sd[1..]);
    }
  }

  lemma {:induction false} AddNewType(table: seq<SideData>, x: SideData)
    requires forall i :: 0 <= i < |table| ==> table[i].sdType != x.sdType
    ensures AddSideData(table, x) == table + [x]
  {
    if table == [] {
    } else {
      AddNewType(table[1..], x);
      assert table == [table[0]] + table[1..];
    }
  }

  lemma {:induction false} AddAllDistinct(table: seq<SideData>, sd: seq<SideData>)
    requires OneEntryAType(table + sd)
    ensures AddAll(table, sd) == table + sd
    decreases |sd|
  {
    if sd == [] {
      assert table + sd == table;
    } else {
      var all := table + sd;
      assert all[|table|] == sd[0];
      assert Truncated(sd[0]) == sd[0];
      forall i | 0 <= i < |table| ensures table[i].sdType != sd[0].sdType {
        assert all[i] == table[i];
      }
      AddNewType(table, sd[0]);
      assert (table + [sd[0]]) + sd[1..] == all;
      AddAllDistinct(table + [sd[0]], sd[1..]);
    }
  }

  /** The table survives exactly when it has one entry a type, each fitting a byte. */
  lemma SideDataSurvives(sd: seq<SideData>)
    ensures AddAll([], sd) == sd <==> OneEntryAType(sd)
  {
    AddAllKeepsOneEntry([], sd);
    if OneEntryAType(sd) {
      assert [] + sd == sd;
      AddAllDistinct([], sd);
    }
  }

  // ------------------------------------------------------------ slice algebra

  /** chunk stands at off in s. */
  ghost predicate At<T>(s: seq<T>, off: nat, chunk: seq<T>) {
    off + |chunk| <= |s| && s[off..off + |chunk|] == chunk
  }

  lemma AtSplit<T>(s: seq<T>, off: nat, a: seq<T>, b: seq<T>)
    requires At(s, off, a + b)
    ensures At(s, off, a) && At(s, off + |a|, b)
  {
    var w := s[off..off + |a + b|];
    assert w[..|a|] == a && w[|a|..] == b;
    assert s[off..off + |a|] == w[..|a|];
    assert s[off + |a|..off + |a| + |b|] == w[|a|..];
  }

  lemma ReadUnsigned(s: seq<byte>, off: nat, v: int, n: nat)
    requires At(s, off, Digits(v, n))
    ensures ReadU(s, off, n) == v % Pow256(n)
  {
    ValueOfDigits(v, n);
  }

  lemma ReadSigned(s: seq<byte>, off: nat, v: int, n: nat)
    requires At(s, off, Digits(v, n)) && FitsSigned(v, n)
    ensures ReadS(s, off, n) == v
  {
    SignedRoundTrip(v, n);
  }

  // ------------------------------------------------------- reading side data

  lemma {:induction false} EncodeSidesCons(sd: seq<SideData>)
    requires sd != []
    ensures EncodeSides(sd) == EncodeSide(sd[0]) + EncodeSides(sd[1..])
  {
    var n := |sd|;
    if n == 1 {
      assert sd[..0] == [] && sd[1..] == [];
    } else {
      EncodeSidesCons(sd[..n - 1]);
      assert sd[..n - 1][1..] == sd[1..][..n - 2];
      Assoc(EncodeSide(sd[0]), EncodeSides(sd[1..][..n - 2]), EncodeSide(sd[n - 1]));
    }
  }

  lemma ReadOneSide(s: seq<byte>, off: nat, x: SideData)
    requires At(s, off, EncodeSide(x)) && FitsSigned(|x.data|, 4)
    ensures off + 5 + |x.data| <= |s|
    ensures ReadU(s, off, 1) == x.sdType % 256
    ensures ReadS(s, off + 1, 4) == |x.data|
    ensures s[off + 5..off + 5 + |x.data|] == x.data
  {
    var t, n := Digits(x.sdType, 1), Digits(|x.data|, 4);
    AtSplit(s, off, t + n, x.data);
    AtSplit(s, off, t, n);
    ReadUnsigned(s, off, x.sdType, 1);
    ReadSigned(s, off + 1, |x.data|, 4);
    assert Pow256(1) == 256;
  }

  /** One step of the reader over a block that is an encoded x. */
  lemma DecodeOneSide(s: seq<byte>, off: nat, x: SideData, k: nat, table: seq<SideData>)
    requires At(s, off, EncodeSide(x)) && FitsSigned(|x.data|, 4) && k > 0
    requires off + 5 + |x.data| <= |s| && SidesInBounds(s, off + 5 + |x.data|, k - 1)
    ensures SidesInBounds(s, off, k)
    ensures DecodeSides(s, off, k, table) ==
            DecodeSides(s, off + 5 + |x.data|, k - 1, AddSideData(table, Truncated(x)))
  {
    ReadOneSide(s, off, x);
    hide At, EncodeSide, ReadU, ReadS, AddSideData, FitsSigned;
  }

  lemma FirstEncodedSide(s: seq<byte>, off: nat, sd: seq<SideData>)
    requires At(s, off, EncodeSides(sd)) && sd != []
    ensures var n := 5 + |sd[0].data|;
            && At(s, off, EncodeSide(sd[0])) && At(s, off + n, EncodeSides(sd[1..]))
            && off + n <= |s| && SidesSize(sd) == n + SidesSize(sd[1..])
  {
    EncodeSidesCons(sd);
    AtSplit(s, off, EncodeSide(sd[0]), EncodeSides(sd[1..]));
    hide EncodeSides, EncodeSide, SidesSize;
  }

  lemma {:induction false} DecodeEncodedSides(s: seq<byte>, off: nat, sd: seq<SideData>, table: seq<SideData>)
    requires At(s, off, EncodeSides(sd)) && SizesFit(sd)
    ensures SidesInBounds(s, off, |sd|)
    ensures DecodeSides(s, off, |sd|, table) == Sides(true, off + SidesSize(sd), AddAll(table, sd))
    decreases |sd|
  {
    if sd == [] {
      hide At;
    } else {
      hide EncodeSide, EncodeSides, SidesSize, At, FitsSigned, DecodeSides, SidesInBounds, AddSideData;
      var x := sd[0];
      FirstEncodedSide(s, off, sd);
      DecodeEncodedSides(s, off + 5 + |x.data|, sd[1..], AddSideData(table, Truncated(x)));
      DecodeOneSide(s, off, x, |sd|, table);
    }
  }

  // ---------------------------------------------------------- reading a packet

  lemma Layout(s: seq<byte>, p: PacketData)
    requires At(s, 0, Encode(p))
    ensures At(s, 0, Front(p)) && At(s, 27 + |p.payload|, Middle(p))
    ensures 27 + |p.payload| <= |s| && s[27..27 + |p.payload|] == p.payload
    ensures At(s, 39 + |p.payload|, EncodeSides(p.sideData))
    ensures At(s, 39 + |p.payload| + SidesSize(p.sideData), Back(p))
  {
    var f, l, m, e, b := Front(p), p.payload, Middle(p), EncodeSides(p.sideData), Back(p);
    AtSplit(s, 0, f + l + m + e, b);
    AtSplit(s, 0, f + l + m, e);
    AtSplit(s, 0, f + l, m);
    AtSplit(s, 0, f, l);
  }

  lemma FrontTable(s: seq<byte>, p: PacketData)
    requires At(s, 0, Front(p))
    ensures |s| >= 27 && s[0] == 1 && s[1] == 0
    ensures s[2..3] == Digits(p.mediaType, 1) && s[3..7] == Digits(ByteSize(p), 4)
    ensures s[7..15] == Digits(p.pts, 8) && s[15..23] == Digits(p.dts, 8)
    ensures s[23..27] == Digits(|p.payload|, 4)
  {
    var a, b, c, d, e := Digits(p.mediaType, 1), Digits(ByteSize(p), 4),
      Digits(p.pts, 8), Digits(p.dts, 8), Digits(|p.payload|, 4);
    var v := [1, 0];
    AtSplit(s, 0, v + a + b + c + d, e);
    AtSplit(s, 0, v + a + b + c, d);
    AtSplit(s, 0, v + a + b, c);
    AtSplit(s, 0, v + a, b);
    AtSplit(s, 0, v, a);
    assert s[0..2][0] == 1 && s[0..2][1] == 0;
  }

  lemma MiddleTable(s: seq<byte>, off: nat, p: PacketData)
    requires At(s, off, Middle(p))
    ensures |s| >= off + 12 && s[off..off + 4] == Digits(p.streamIndex, 4)
    ensures s[off + 4..off + 8] == Digits(p.flags, 4) && s[off + 8..off + 12] == Digits(|p.sideData|, 4)
  {
    var a, b, c := Digits(p.streamIndex, 4), Digits(p.flags, 4), Digits(|p.sideData|, 4);
    AtSplit(s, off, a + b, c);
    AtSplit(s, off, a, b);
  }

  /** The writer's bytes are those of the format table, place by place. */
  lemma FormatTable(p: PacketData)
    ensures var s, n, m := Encode(p), |p.payload|, SidesSize(p.sideData);
      && |s| == 55 + n + m && s[0] == 1 && s[1] == 0
      && s[2..3] == Digits(p.mediaType, 1) && s[3..7] == Digits(|s|, 4)
      && s[7..15] == Digits(p.pts, 8) && s[15..23] == Digits(p.dts, 8)
      && s[23..27] == Digits(n, 4) && s[27..27 + n] == p.payload
      && s[27 + n..31 + n] == Digits(p.streamIndex, 4) && s[31 + n..35 + n] == Digits(p.flags, 4)
      && s[35 + n..39 + n] == Digits(|p.sideData|, 4)
      && s[39 + n + m..47 + n + m] == Digits(p.duration, 8) && s[47 + n + m..55 + n + m] == Digits(p.pos, 8)
  {
    hide Encode, Front, Middle, Back, EncodeSides, Digits, SidesSize;
    var s, n, m := Encode(p), |p.payload|, SidesSize(p.sideData);
    assert s[0..|s|] == s;
    Layout(s, p);
    FrontTable(s, p);
    MiddleTable(s, 27 + n, p);
    BackTable(s, 39 + n + m, p);
  }

  lemma BackTable(s: seq<byte>, off: nat, p: PacketData)
    requires At(s, off, Back(p))
    ensures |s| >= off + 16
    ensures s[off..off + 8] == Digits(p.duration, 8) && s[off + 8..off + 16] == Digits(p.pos, 8)
  {
    AtSplit(s, off, Digits(p.duration, 8), Digits(p.pos, 8));
  }

  /** The i-th block of side data: its type, its size and its bytes, behind the blocks
      before it. */
  lemma {:induction false} SideTable(s: seq<byte>, off: nat, sd: seq<SideData>, i: nat)
    requires At(s, off, EncodeSides(sd)) && i < |sd|
    ensures var o, x := off + SidesSize(sd[..i]), sd[i];
      && o + 5 + |x.data| <= |s| && s[o..o + 1] == Digits(x.sdType, 1)
      && s[o + 1..o + 5] == Digits(|x.data|, 4) && s[o + 5..o + 5 + |x.data|] == x.data
    decreases |sd|
  {
    hide *;
    var n := |sd| - 1;
    EncodeSidesLast(sd);
    LastSide(s, off, sd[..n], sd[n]);
    if i < n {
      assert sd[..n][..i] == sd[..i];
      SideTable(s, off, sd[..n], i);
    } else {
      OneSideTable(s, off + SidesSize(sd[..n]), sd[n]);
    }
  }

  lemma LastSide(s: seq<byte>, off: nat, before: seq<SideData>, x: SideData)
    requires At(s, off, EncodeSides(before) + EncodeSide(x))
    ensures At(s, off, EncodeSides(before)) && At(s, off + SidesSize(before), EncodeSide(x))
  {
    hide EncodeSide, SidesSize, At;
    AtSplit(s, off, EncodeSides(before), EncodeSide(x));
  }

  lemma EncodeSidesLast(sd: seq<SideData>)
    requires sd != []
    ensures var n := |sd| - 1; EncodeSides(sd) == EncodeSides(sd[..n]) + EncodeSide(sd[n])
  {
    hide EncodeSide;
  }

  lemma OneSideTable(s: seq<byte>, o: nat, x: SideData)
    requires At(s, o, EncodeSide(x))
    ensures o + 5 + |x.data| <= |s| && s[o..o + 1] == Digits(x.sdType, 1)
    ensures s[o + 1..o + 5] == Digits(|x.data|, 4) && s[o + 5..o + 5 + |x.data|] == x.data
  {
    AtSplit(s, o, Digits(x.sdType, 1) + Digits(|x.data|, 4), x.data);
    AtSplit(s, o, Digits(x.sdType, 1), Digits(|x.data|, 4));
  }

  /** The fields of p as the reader's cursor finds them in s, part by part. */
  ghost predicate MeetsFront(s: seq<byte>, p: PacketData) {
    && |s| >= 27
    && ReadU(s, 2, 1) == p.mediaType % 256 && ReadU(s, 3, 4) == ByteSize(p) % 0x1_0000_0000
    && ReadS(s, 7, 8) == p.pts && ReadS(s, 15, 8) == p.dts && ReadS(s, 23, 4) == |p.payload|
  }

  ghost predicate MeetsMiddle(s: seq<byte>, off: nat, p: PacketData) {
    && |s| >= off + 12
    && ReadS(s, off, 4) == p.streamIndex && ReadS(s, off + 4, 4) == p.flags
    && ReadS(s, off + 8, 4) == |p.sideData|
  }

  ghost predicate MeetsSides(s: seq<byte>, off: nat, sd: seq<SideData>) {
    && SidesInBounds(s, off, |sd|)
    && DecodeSides(s, off, |sd|, []) == Sides(true, off + SidesSize(sd), AddAll([], sd))
  }

  ghost predicate MeetsBack(s: seq<byte>, off: nat, p: PacketData) {
    && |s| >= off + 16
    && ReadS(s, off, 8) == p.duration && ReadS(s, off + 8, 8) == p.pos
  }

  ghost predicate Meets(s: seq<byte>, p: PacketData) {
    var off := 27 + |p.payload|;
    && MeetsFront(s, p)
    && off <= |s| && s[27..off] == p.payload
    && MeetsMiddle(s, off, p)
    && MeetsSides(s, off + 12, p.sideData)
    && MeetsBack(s, off + 12 + SidesSize(p.sideData), p)
  }

  lemma ReadFront(s: seq<byte>, p: PacketData)
    requires At(s, 0, Front(p)) && Representable(p)
    ensures MeetsFront(s, p)
  {
    var a, b, c, d, e := Digits(p.mediaType, 1), Digits(ByteSize(p), 4),
      Digits(p.pts, 8), Digits(p.dts, 8), Digits(|p.payload|, 4);
    var v := [1, 0];
    AtSplit(s, 0, v + a + b + c + d, e);
    AtSplit(s, 0, v + a + b + c, d);
    AtSplit(s, 0, v + a + b, c);
    AtSplit(s, 0, v + a, b);
    AtSplit(s, 0, v, a);
    ReadUnsigned(s, 2, p.mediaType, 1);
    ReadUnsigned(s, 3, ByteSize(p), 4);
    ReadSigned(s, 7, p.pts, 8);
    ReadSigned(s, 15, p.dts, 8);
    ReadSigned(s, 23, |p.payload|, 4);
    assert Pow256(1) == 256 && Pow256(4) == 0x1_0000_0000;
  }

  lemma ReadMiddle(s: seq<byte>, off: nat, p: PacketData)
    requires At(s, off, Middle(p)) && Representable(p)
    ensures MeetsMiddle(s, off, p)
  {
    var a, b, c := Digits(p.streamIndex, 4), Digits(p.flags, 4), Digits(|p.sideData|, 4);
    AtSplit(s, off, a + b, c);
    AtSplit(s, off, a, b);
    ReadSigned(s, off, p.streamIndex, 4);
    ReadSigned(s, off + 4, p.flags, 4);
    ReadSigned(s, off + 8, |p.sideData|, 4);
  }

  lemma ReadSides(s: seq<byte>, off: nat, sd: seq<SideData>)
    requires At(s, off, EncodeSides(sd)) && SizesFit(sd)
    ensures MeetsSides(s, off, sd)
  {
    hide SidesInBounds, DecodeSides, At, EncodeSides;
    DecodeEncodedSides(s, off, sd, []);
  }

  lemma ReadBack(s: seq<byte>, off: nat, p: PacketData)
    requires At(s, off, Back(p)) && Representable(p)
    ensures MeetsBack(s, off, p)
  {
    AtSplit(s, off, Digits(p.duration, 8), Digits(p.pos, 8));
    ReadSigned(s, off, p.duration, 8);
    ReadSigned(s, off + 8, p.pos, 8);
  }

  lemma EncodingMeets(s: seq<byte>, p: PacketData)
    requires At(s, 0, Encode(p)) && Representable(p)
    ensures Meets(s, p)
  {
    hide At, Encode, Front, Middle, Back, EncodeSides, SidesInBounds, DecodeSides, SidesSize;
    assert SizesFit(p.sideData);
    hide Representable, SizesFit, MeetsFront, MeetsMiddle, MeetsSides, MeetsBack;
    Layout(s, p);
    var off := 27 + |p.payload|;
    ReadFront(s, p);
    ReadMiddle(s, off, p);
    ReadSides(s, off + 12, p.sideData);
    ReadBack(s, off + 12 + SidesSize(p.sideData), p);
  }

  /** What arrives when p was sent: the media type and the side-data types as
      bytes, one table entry a type, and `pos` from whichever slot is read. */
  function Arrived(p: PacketData, gap: nat): PacketData {
    p.(mediaType := p.mediaType % 256, sideData := AddAll([], p.sideData),
       pos := if gap == AS_WRITTEN then p.duration else p.pos)
  }

  /** The reader stays inside s and leaves this. */
  predicate Returns(s: seq<byte>, d0: PacketData, gap: nat, d: Decoded) {
    InBounds(s, d0, gap) && Decode(s, d0, gap) == d
  }

  /** Main lemma: the reader on an encoding followed by anything, into a `Data`
      without side data, stays in bounds and leaves exactly this. */
  lemma DecodeOfEncode(p: PacketData, tail: seq<byte>, d0: PacketData, gap: nat)
    requires Representable(p) && d0.sideData == []
    requires gap == AS_WRITTEN || gap == AS_DOCUMENTED
    ensures Returns(Encode(p) + tail, d0, gap,
                    Decoded(if ByteSize(p) < 0x1_0000_0000 then OK else ABORTED, Arrived(p, gap)))
  {
    hide Encode, Representable, ReadU, ReadS, AddAll, DecodeSides, SidesInBounds, SidesSize;
    var s := Encode(p) + tail;
    assert At(s, 0, Encode(p));
    EncodingMeets(s, p);
  }

  // ------------------------------------------------------------- main theorems

  /** The reader as written returns the packet sent exactly when the total size
      fits 32 bits, the types fit their bytes with no side-data type twice, and
      `pos` happened to equal `duration`. */
  lemma RoundTripAsWritten(p: PacketData, tail: seq<byte>, d0: PacketData)
    requires Representable(p) && d0.sideData == []
    ensures Returns(Encode(p) + tail, d0, AS_WRITTEN, Decoded(OK, p))
       <==> ByteSize(p) < 0x1_0000_0000 && 0 <= p.mediaType < 256 && OneEntryAType(p.sideData)
            && p.pos == p.duration
  {
    hide Encode, Decode, InBounds;
    DecodeOfEncode(p, tail, d0, AS_WRITTEN);
    SideDataSurvives(p.sideData);
  }

  /** Every field but `pos` comes back under the remaining conditions. */
  lemma RoundTripButPos(p: PacketData, tail: seq<byte>, d0: PacketData)
    requires Representable(p) && d0.sideData == []
    ensures Returns(Encode(p) + tail, d0, AS_WRITTEN, Decoded(OK, p.(pos := p.duration)))
       <==> ByteSize(p) < 0x1_0000_0000 && 0 <= p.mediaType < 256 && OneEntryAType(p.sideData)
  {
    hide Encode, Decode, InBounds;
    DecodeOfEncode(p, tail, d0, AS_WRITTEN);
    SideDataSurvives(p.sideData);
  }

  /** The format table: reading `pos` from its own slot gives the full round trip. */
  lemma RoundTripAsDocumented(p: PacketData, tail: seq<byte>, d0: PacketData)
    requires Representable(p) && d0.sideData == []
    ensures Returns(Encode(p) + tail, d0, AS_DOCUMENTED, Decoded(OK, p))
       <==> ByteSize(p) < 0x1_0000_0000 && 0 <= p.mediaType < 256 && OneEntryAType(p.sideData)
  {
    hide Encode, Decode, InBounds;
    DecodeOfEncode(p, tail, d0, AS_DOCUMENTED);
    SideDataSurvives(p.sideData);
  }

  /** A packet with duration 7 and the given file position. */
  function At7(pos: int): PacketData {
    Blank().(mediaType := 0, pts := 0, dts := 0, duration := 7, pos := pos)
  }

  lemma At7Representable(pos: int)
    requires 0 <= pos < 128
    ensures Representable(At7(pos)) && ByteSize(At7(pos)) == 55
  {
    Pow256Grows(1, 4);
    Pow256Grows(1, 8);
    assert Pow256(1) == 256;
  }

  /** A file position that is lost: 5 is sent, 7 (the duration) arrives. */
  lemma PosIsLost()
    ensures Returns(Encode(At7(5)), Blank(), AS_WRITTEN, Decoded(OK, At7(7)))
  {
    assert Encode(At7(5)) + [] == Encode(At7(5));
    At7Representable(5);
    RoundTripButPos(At7(5), [], Blank());
  }

  ghost predicate Sendable(p: PacketData) {
    Representable(p) && ByteSize(p) < 0x1_0000_0000 && 0 <= p.mediaType < 256 && OneEntryAType(p.sideData)
  }

  /** Self-delimiting: encodings that agree up to trailing bytes are of one
      packet, and then the trailing bytes agree too.  In particular no encoding
      is a proper prefix of another and encoding is injective. */
  lemma SelfDelimiting(p: PacketData, q: PacketData, x: seq<byte>, y: seq<byte>)
    requires Sendable(p) && Sendable(q)
    requires Encode(p) + x == Encode(q) + y
    ensures p == q && x == y
  {
    hide Encode, Decode, InBounds;
    RoundTripAsDocumented(p, x, Blank());
    RoundTripAsDocumented(q, y, Blank());
    assert x == (Encode(p) + x)[ByteSize(p)..];
    assert y == (Encode(q) + y)[ByteSize(q)..];
  }

  // -------------------------------------------------------- the other direction

  lemma ReencodeInt(s: seq<byte>, off: nat, n: nat)
    requires off + n <= |s|
    ensures Digits(ReadU(s, off, n), n) == s[off..off + n]
    ensures Digits(ReadS(s, off, n), n) == s[off..off + n]
  {
    DigitsOfValue(s[off..off + n]);
    DigitsOfSigned(s[off..off + n]);
  }

  lemma Glue<T>(s: seq<T>, i: nat, j: nat, k: nat)
    requires i <= j <= k <= |s|
    ensures s[i..j] + s[j..k] == s[i..k]
  {}

  lemma GlueOn<T>(v: seq<T>, s: seq<T>, i: nat, j: nat, k: nat)
    requires i <= j <= k <= |s|
    ensures v + s[i..j] + s[j..k] == v + s[i..k]
  {
    Glue(s, i, j, k);
    Assoc(v, s[i..j], s[j..k]);
  }

  /** A stretch of s is where it was when only what is before it has changed. */
  lemma SameStretch<T>(v: seq<T>, s: seq<T>, n: nat, i: nat, j: nat)
    requires |v| <= i <= j <= n <= |s|
    ensures (v + s[|v|..n])[i..j] == s[i..j]
  {
    var t := v + s[|v|..n];
    forall k | i <= k < j ensures t[k] == s[k] {}
  }

  /** Adding a block lengthens the table by one exactly when it appends. */
  lemma {:induction false} AddLength(table: seq<SideData>, x: SideData)
    ensures |AddSideData(table, x)| <= |table| + 1
    ensures |AddSideData(table, x)| == |table| + 1 ==> AddSideData(table, x) == table + [x]
  {
    if table != [] && table[0].sdType != x.sdType {
      AddLength(table[1..], x);
      assert table == [table[0]] + table[1..];
    }
  }

  lemma ReencodeOneSide(s: seq<byte>, off: nat)
    requires off + 5 <= |s| && ReadS(s, off + 1, 4) >= 0 && off + 5 + ReadS(s, off + 1, 4) <= |s|
    ensures var size := ReadS(s, off + 1, 4);
      EncodeSide(SideData(ReadU(s, off, 1), s[off + 5..off + 5 + size])) == s[off..off + 5 + size]
  {
    var size := ReadS(s, off + 1, 4);
    ReencodeInt(s, off, 1);
    ReencodeInt(s, off + 1, 4);
    Glue(s, off, off + 1, off + 5);
    Glue(s, off, off + 5, off + 5 + size);
  }

  lemma {:induction false} DecodedTableGrows(s: seq<byte>, off: nat, k: int, table: seq<SideData>)
    requires SidesInBounds(s, off, k)
    ensures |DecodeSides(s, off, k, table).table| <= |table| + (if k < 0 then 0 else k)
    decreases k
  {
    hide ReadU, ReadS, AddSideData;
    if k <= 0 {
    } else {
      var size := ReadS(s, off + 1, 4);
      if size >= 0 {
        var block := SideData(ReadU(s, off, 1), s[off + 5..off + 5 + size]);
        AddLength(table, block);
        DecodedTableGrows(s, off + 5 + size, k - 1, AddSideData(table, block));
      }
    }
  }

  /** When no block replaced another, the bytes read are the encoding of the table. */
  lemma {:induction false} ReencodeSides(s: seq<byte>, start: nat, off: nat, k: nat, table: seq<SideData>)
    requires start <= off <= |s| && SidesInBounds(s, off, k)
    requires s[start..off] == EncodeSides(table)
    requires DecodeSides(s, off, k, table).ok && |DecodeSides(s, off, k, table).table| == |table| + k
    ensures var r := DecodeSides(s, off, k, table);
      start <= r.end <= |s| && s[start..r.end] == EncodeSides(r.table)
    decreases k
  {
    hide ReadU, ReadS, AddSideData, EncodeSide;
    if k == 0 {
    } else {
      var size := ReadS(s, off + 1, 4);
      var block := SideData(ReadU(s, off, 1), s[off + 5..off + 5 + size]);
      AddLength(table, block);
      DecodedTableGrows(s, off + 5 + size, k - 1, AddSideData(table, block));
      var t := table + [block];
      assert AddSideData(table, block) == t;
      assert t[..|t| - 1] == table && t[|t| - 1] == block;
      ReencodeOneSide(s, off);
      Glue(s, start, off, off + 5 + size);
      ReencodeSides(s, start, off + 5 + size, k - 1, t);
    }
  }

  /** An accepted input: s decodes with status OK, giving d, `pos` from its own slot. */
  ghost predicate Accepts(s: seq<byte>, d: PacketData) {
    Returns(s, Blank(), AS_DOCUMENTED, Decoded(OK, d))
  }

  /** The block count an accepted input announces. */
  function Announced(s: seq<byte>, d: PacketData): int
    requires 39 + |d.payload| <= |s|
  {
    ReadS(s, 35 + |d.payload|, 4)
  }

  lemma AcceptedFields(s: seq<byte>, d: PacketData)
    requires Accepts(s, d)
    ensures 39 + |d.payload| <= |s| && s[27..27 + |d.payload|] == d.payload
    ensures d.mediaType == ReadU(s, 2, 1) && d.pts == ReadS(s, 7, 8) && d.dts == ReadS(s, 15, 8)
    ensures ReadS(s, 23, 4) == |d.payload|
  {
    hide ReadU, ReadS, DecodeSides, SidesInBounds, SidesSize, Digits;
    assert ReadS(s, 23, 4) == |d.payload|;
  }

  lemma AcceptedFront(s: seq<byte>, d: PacketData)
    requires Accepts(s, d)
    ensures 27 + |d.payload| <= |s| && s[27..27 + |d.payload|] == d.payload
    ensures ByteSize(d) == ReadU(s, 3, 4) ==> Front(d) == [1, 0] + s[2..27]
  {
    hide ReadU, ReadS, Accepts, Digits, ByteSize;
    AcceptedFields(s, d);
    ReencodeInt(s, 2, 1);
    ReencodeInt(s, 3, 4);
    ReencodeInt(s, 7, 8);
    ReencodeInt(s, 15, 8);
    ReencodeInt(s, 23, 4);
    var v := [1, 0];
    GlueOn(v, s, 2, 3, 7);
    GlueOn(v, s, 2, 7, 15);
    GlueOn(v, s, 2, 15, 23);
    GlueOn(v, s, 2, 23, 27);
  }

  /** What follows the payload of an accepted input, against its decoding. */
  ghost predicate Tail(s: seq<byte>, d: PacketData) {
    var l := |d.payload|;
    && 39 + l <= |s| && SidesInBounds(s, 39 + l, Announced(s, d))
    && var sides := DecodeSides(s, 39 + l, Announced(s, d), []);
    && sides.ok && sides.table == d.sideData && sides.end + 16 == ReadU(s, 3, 4) <= |s|
    && (|d.sideData| == Announced(s, d) ==> Middle(d) == s[27 + l..39 + l])
    && Back(d) == s[sides.end..sides.end + 16]
  }

  lemma AcceptedTail(s: seq<byte>, d: PacketData)
    requires Accepts(s, d)
    ensures Tail(s, d)
  {
    hide ReadU, ReadS, DecodeSides, SidesInBounds;
    var l := |d.payload|;
    assert ReadS(s, 23, 4) == l;
    var e := DecodeSides(s, 39 + l, Announced(s, d), []).end;
    ReencodeInt(s, 27 + l, 4);
    ReencodeInt(s, 31 + l, 4);
    ReencodeInt(s, 35 + l, 4);
    ReencodeInt(s, e, 8);
    ReencodeInt(s, e + 8, 8);
    hide Digits, InBounds;
    Glue(s, 27 + l, 31 + l, 35 + l);
    Glue(s, 27 + l, 35 + l, 39 + l);
    Glue(s, e, e + 8, e + 16);
  }

  lemma ReencodeUnreplaced(s: seq<byte>, d: PacketData)
    requires Accepts(s, d)
    requires 39 + |d.payload| <= |s| && |d.sideData| == Announced(s, d)
    ensures ReadU(s, 3, 4) <= |s| && Encode(d) == [1, 0] + s[2..ReadU(s, 3, 4)]
  {
    hide Accepts, DecodeSides, SidesInBounds, ReadU, ReadS, Front, Middle, Back, Announced;
    var l, k := |d.payload|, Announced(s, d);
    AcceptedFront(s, d);
    AcceptedTail(s, d);
    ReencodeSides(s, 39 + l, 39 + l, k, []);
    var e := 39 + l + SidesSize(d.sideData);
    hide EncodeSides, Tail, SidesSize;
    Join(s, 27, 27 + l, 39 + l, e, e + 16);
  }

  lemma Join<T>(s: seq<T>, a: nat, b: nat, c: nat, d: nat, e: nat)
    requires 2 <= a <= b <= c <= d <= e <= |s|
    ensures s[2..a] + s[a..b] + s[b..c] + s[c..d] + s[d..e] == s[2..e]
    ensures forall v: seq<T> :: v + s[2..a] + s[a..b] + s[b..c] + s[c..d] + s[d..e] == v + s[2..e]
  {
    Glue(s, 2, a, b);
    Glue(s, 2, b, c);
    Glue(s, 2, c, d);
    Glue(s, 2, d, e);
    forall v: seq<T> ensures v + s[2..a] + s[a..b] + s[b..c] + s[c..d] + s[d..e] == v + s[2..e] {
      Assoc(v, s[2..a], s[a..b]);
      Assoc(v, s[2..b], s[b..c]);
      Assoc(v, s[2..c], s[c..d]);
      Assoc(v, s[2..d], s[d..e]);
    }
  }

  lemma {:induction false} DecodedSidesAdvance(s: seq<byte>, off: nat, k: int, table: seq<SideData>)
    requires SidesInBounds(s, off, k)
    ensures DecodeSides(s, off, k, table).end >= off
    decreases k
  {
    hide ReadU, ReadS, AddSideData;
    if k <= 0 {
    } else {
      var size := ReadS(s, off + 1, 4);
      if size >= 0 {
        var block := SideData(ReadU(s, off, 1), s[off + 5..off + 5 + size]);
        DecodedSidesAdvance(s, off + 5 + size, k - 1, AddSideData(table, block));
      }
    }
  }

  /** An encoding announces the blocks it holds. */
  lemma EncodingAnnounces(s: seq<byte>, d: PacketData, n: nat)
    requires 39 + |d.payload| <= n <= |s| && FitsSigned(|d.sideData|, 4)
    requires Encode(d) == [1, 0] + s[2..n]
    ensures Announced(s, d) == |d.sideData|
  {
    var t := [1, 0] + s[2..n];
    var off := 35 + |d.payload|;
    SameStretch([1, 0], s, n, off, off + 4);
    AnnouncedCount(t, d);
    hide Encode, EncodeSides, Digits, SidesSize;
    ReadSigned(s, off, |d.sideData|, 4);
  }

  lemma AnnouncedCount(t: seq<byte>, d: PacketData)
    requires Encode(d) == t
    ensures At(t, 35 + |d.payload|, Digits(|d.sideData|, 4))
  {
    hide EncodeSides, Digits, SidesSize, Encode;
    assert t[0..|t|] == t;
    Layout(t, d);
    AtSplit(t, 27 + |d.payload|, Digits(d.streamIndex, 4) + Digits(d.flags, 4), Digits(|d.sideData|, 4));
  }

  /** The format table has one spelling a packet: what its reader accepts is
      re-encoded to the same bytes, version apart, exactly when no side-data block
      of the input replaced an earlier one. */
  lemma ReencodeAsDocumented(s: seq<byte>, d: PacketData)
    requires Accepts(s, d)
    ensures 39 + |d.payload| <= |s| && ReadU(s, 3, 4) <= |s|
    ensures Encode(d) == [1, 0] + s[2..ReadU(s, 3, 4)] <==> |d.sideData| == Announced(s, d)
  {
    var l := |d.payload|;
    AcceptedTail(s, d);
    var k := Announced(s, d);
    DigitsOfSigned(s[35 + l..39 + l]);
    hide Accepts, DecodeSides, SidesInBounds, ReadU, ReadS, Encode, Middle, Back, Value, Signed, Digits;
    DecodedTableGrows(s, 39 + l, k, []);
    DecodedSidesAdvance(s, 39 + l, k, []);
    if |d.sideData| == k {
      ReencodeUnreplaced(s, d);
    }
    if Encode(d) == [1, 0] + s[2..ReadU(s, 3, 4)] {
      EncodingAnnounces(s, d, ReadU(s, 3, 4));
    }
  }

  /** What the reader as written accepts, and what the reader of the format table
      makes of it: the packet with `pos` from its own slot. */
  lemma AcceptedAsWritten(s: seq<byte>, d: PacketData)
    requires Returns(s, Blank(), AS_WRITTEN, Decoded(OK, d))
    ensures var n := ReadU(s, 3, 4);
      && 16 <= n <= |s| && Accepts(s, d.(pos := ReadS(s, n - 8, 8)))
      && d.duration == d.pos == ReadS(s, n - 16, 8)
  {
    hide ReadU, ReadS, DecodeSides, SidesInBounds;
  }

  lemma SameBack(d: PacketData, f: PacketData)
    requires f == d.(pos := f.pos) && Encode(d) == Encode(f)
    ensures Digits(d.pos, 8) == Digits(f.pos, 8)
  {
    hide Digits, EncodeSides, SidesSize, Front, Middle;
    var head := Front(d) + d.payload + Middle(d) + EncodeSides(d.sideData);
    SameFront(d, f);
    assert (head + Back(d))[|head|..] == Back(d) && (head + Back(f))[|head|..] == Back(f);
    assert Back(d)[8..] == Digits(d.pos, 8) && Back(f)[8..] == Digits(f.pos, 8);
  }

  lemma SameFront(d: PacketData, f: PacketData)
    requires f == d.(pos := f.pos)
    ensures Front(f) == Front(d) && Middle(f) == Middle(d)
  {}

  /** The reader as written loses the `pos` slot: what it accepts is re-encoded to
      the same bytes, version apart, exactly when no side-data block replaced an
      earlier one and the slots of `duration` and `pos` hold the same bytes. */
  lemma ReencodeAsWritten(s: seq<byte>, d: PacketData)
    requires Returns(s, Blank(), AS_WRITTEN, Decoded(OK, d))
    ensures 39 + |d.payload| <= |s| && 16 <= ReadU(s, 3, 4) <= |s|
    ensures var n := ReadU(s, 3, 4);
      Encode(d) == [1, 0] + s[2..n] <==> |d.sideData| == Announced(s, d) && s[n - 16..n - 8] == s[n - 8..n]
  {
    hide Returns, Accepts, ReadU, ReadS, Encode, Digits, FitsSigned;
    AcceptedAsWritten(s, d);
    var n := ReadU(s, 3, 4);
    var f := d.(pos := ReadS(s, n - 8, 8));
    ReencodeAsDocumented(s, f);
    ReencodeInt(s, n - 16, 8);
    ReencodeInt(s, n - 8, 8);
    if Encode(d) == [1, 0] + s[2..n] {
      CountFits(s, f);
      EncodingAnnounces(s, d, n);
      SameBack(d, f);
    }
    if s[n - 16..n - 8] == s[n - 8..n] {
      SameSlots(s, n);
      assert f == d;
    }
  }

  lemma SameSlots(s: seq<byte>, n: nat)
    requires 16 <= n <= |s| && s[n - 16..n - 8] == s[n - 8..n]
    ensures ReadS(s, n - 16, 8) == ReadS(s, n - 8, 8)
  {
    hide Value, Signed;
  }

  /** The table of an accepted input has no more entries than a 32-bit count. */
  lemma CountFits(s: seq<byte>, d: PacketData)
    requires Accepts(s, d) && 39 + |d.payload| <= |s|
    ensures FitsSigned(|d.sideData|, 4) && 39 + |d.payload| <= ReadU(s, 3, 4)
  {
    AcceptedTail(s, d);
    var l, k := |d.payload|, Announced(s, d);
    DigitsOfSigned(s[35 + l..39 + l]);
    hide Accepts, DecodeSides, SidesInBounds, ReadU, ReadS, Encode, Middle, Back, Value, Signed, Digits;
    DecodedTableGrows(s, 39 + l, k, []);
    DecodedSidesAdvance(s, 39 + l, k, []);
  }

  lemma VersionFirst(p: PacketData)
    ensures Encode(p)[..2] == [1, 0]
  {
    hide Digits, EncodeSides, SidesSize, Middle, Back;
    assert Front(p)[..2] == [1, 0];
    assert Encode(p)[..27] == Front(p);
  }

  lemma EncodingCounts(s: seq<byte>, p: PacketData)
    requires Meets(s, p) && ByteSize(p) < 0x1_0000_0000
    ensures 39 + |p.payload| <= |s| && ReadU(s, 3, 4) == ByteSize(p) && Announced(s, p) == |p.sideData|
  {
    hide ReadU, ReadS, MeetsSides, MeetsBack, ByteSize;
  }

  lemma EncodingParts(p: PacketData)
    requires Representable(p) && ByteSize(p) < 0x1_0000_0000
    ensures var s := Encode(p);
      && |s| >= 39 + |p.payload| && ReadU(s, 3, 4) == |s| && Announced(s, p) == |p.sideData|
      && [1, 0] + s[2..] == s
  {
    hide Encode, Meets, Representable, ByteSize, Announced, ReadU;
    var s := Encode(p);
    assert s[0..|s|] == s;
    EncodingMeets(s, p);
    EncodingCounts(s, p);
    VersionFirst(p);
    assert s == s[..2] + s[2..];
  }

  /** s is accepted as d by the reader as written, no side-data block was replaced,
      and yet d is spelled otherwise. */
  ghost predicate Respelt(s: seq<byte>, d: PacketData) {
    && Returns(s, Blank(), AS_WRITTEN, Decoded(OK, d))
    && 39 + |d.payload| <= |s| && 2 <= ReadU(s, 3, 4) <= |s|
    && |d.sideData| == Announced(s, d) && Encode(d) != [1, 0] + s[2..ReadU(s, 3, 4)]
  }

  /** Every packet sent whose `pos` is not its `duration` is spelled otherwise when it
      is read as written and encoded again. */
  lemma PosIsRespelt(p: PacketData)
    requires Sendable(p) && p.pos != p.duration
    ensures Respelt(Encode(p), p.(pos := p.duration))
  {
    var s, d := Encode(p), p.(pos := p.duration);
    SendableWith(p);
    RoundTripButPos(p, [], Blank());
    EncodingParts(p);
    hide Encode, Returns, ReadU, ReadS, Sendable, Representable, ByteSize;
    assert s + [] == s && Encode(d) + [] == Encode(d);
    if Encode(d) == s {
      SelfDelimiting(d, p, [], []);
    }
  }

  lemma SendableWith(p: PacketData)
    requires Sendable(p)
    ensures Sendable(p.(pos := p.duration))
  {
    hide OneEntryAType, SizesFit, FitsSigned;
  }

  /** Such an input: the encoding of a packet with duration 7 and file position 5. */
  lemma ReencodeChangesPos()
    ensures Respelt(Encode(At7(5)), At7(7))
  {
    At7Representable(5);
    hide Respelt, Encode, Representable, ByteSize;
    PosIsRespelt(At7(5));
  }
}
