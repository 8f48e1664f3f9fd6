/**
 Codec parameters and stream lists as JSON trees (common/net/json.h).
 Printing and parsing the text of a tree is the JSON library's and not part of this
 model.
 */
module CodecJson {
  import opened Bytes
  import opened Options
  import opened Sequences

  /** The integer members of the codec parameters. */
  datatype Field =
    | CodecType | CodecId | CodecTag | BitRate | BitsPerCodedSample | BitsPerRawSample | Profile | Level
    | ExtradataSize
    | Format | Width | Height | FieldOrder | ColorRange | ColorPrimaries | ColorTrc | ColorSpace
    | ChromaLocation | VideoDelay
    | ChannelLayout | Channels | SampleRate | BlockAlign | FrameSize
    | InitialPadding | TrailingPadding | SeekPreroll

  /** The names in the JSON objects; Media(t): the name of media type t. */
  datatype Key =
    | Member(field: Field) | Extradata | SampleAspectRatio | Num | Den | Id | Codecpar | Media(t: int)

  datatype Json = Null | Number(n: int) | Text(s: string) | Object(members: map<Key, Json>) | Array(items: seq<Json>)

  // ------------------------------------------------------------------ hex digits

  const DIGITS := "0123456789abcdef"

  function TwoDigits(b: byte): (s: string)
    ensures |s| == 2
  {
    [DIGITS[b as int / 16], DIGITS[b as int % 16]]
  }

  /** Two lower-case digits a byte. */
  function HexText(bytes: seq<byte>): (s: string)
    ensures |s| == 2 * |bytes|
  {
    if bytes == [] then ""
    else HexText(bytes[..|bytes| - 1]) + TwoDigits(bytes[|bytes| - 1])
  }

  function DigitValue(c: char): Option<nat> {
    if '0' <= c <= '9' then Some(c as nat - '0' as nat)
    else if 'a' <= c <= 'f' then Some(c as nat - 'a' as nat + 10)
    else if 'A' <= c <= 'F' then Some(c as nat - 'A' as nat + 10)
    else None
  }

  predicate IsSpace(c: char) {
    c == ' ' || '\t' as int <= c as int <= '\r' as int
  }

  /** std::stoi of at most two characters, base 16; None: it throws. */
  function StoiHex(s: string): Option<int>
    requires |s| <= 2
  {
    if s == [] then None
    else
      match DigitValue(s[0])
      case Some(high) =>
        if |s| == 2 && DigitValue(s[1]).Some? then Some(16 * high + DigitValue(s[1]).value) else Some(high)
      case None =>
        if |s| == 2 && DigitValue(s[1]).Some? then
          var low: int := DigitValue(s[1]).value;
          if s[0] == '-' then Some(-low) else if s[0] == '+' || IsSpace(s[0]) then Some(low) else None
        else None
  }

  /** substr(2 * i, 2): None: it throws. */
  function Pair(s: string, i: nat): Option<string> {
    if 2 * i > |s| then None else Some(s[2 * i..if 2 * i + 2 <= |s| then 2 * i + 2 else |s|])
  }

  function ReadByte(s: string, i: nat): Option<byte> {
    if Pair(s, i).None? then None
    else
      match StoiHex(Pair(s, i).value)
      case None => None
      case Some(v) => Some((v % 256) as byte)
  }

  /** The first n bytes of a text, or the exception. */
  function ReadBytes(s: string, n: nat): (r: Option<seq<byte>>)
    ensures r.Some? ==> |r.value| == n
  {
    if n == 0 then Some([])
    else
      match ReadBytes(s, n - 1)
      case None => None
      case Some(before) =>
        match ReadByte(s, n - 1)
        case None => None
        case Some(b) => Some(before + [b])
  }

  lemma DigitBack(d: nat)
    requires d < 16
    ensures DigitValue(DIGITS[d]) == Some(d)
  {
    assert DIGITS[0] == '0' && DIGITS[9] == '9' && DIGITS[10] == 'a' && DIGITS[15] == 'f';
  }

  lemma ByteBack(text: string, b: byte, rest: string)
    requires |text| % 2 == 0
    ensures ReadByte(text + TwoDigits(b) + rest, |text| / 2) == Some(b)
  {
    var s := text + TwoDigits(b) + rest;
    assert s[|text|..|text| + 2] == TwoDigits(b);
    DigitBack(b as int / 16);
    DigitBack(b as int % 16);
  }

  /** Hex digits of any bytes, whatever follows them, read back as the bytes. */
  lemma {:induction false} HexRoundTrip(bytes: seq<byte>, rest: string)
    ensures ReadBytes(HexText(bytes) + rest, |bytes|) == Some(bytes)
    decreases |bytes|
  {
    hide ReadByte, TwoDigits;
    if bytes == [] {
    } else {
      var n := |bytes| - 1;
      var before, two := HexText(bytes[..n]), TwoDigits(bytes[n]);
      HexRoundTrip(bytes[..n], two + rest);
      ByteBack(before, bytes[n], rest);
      Assoc(before, two, rest);
      assert bytes == bytes[..n] + [bytes[n]];
    }
  }

  /** The digit of d: lower case. */
  lemma DigitIs(d: nat)
    requires d < 16
    ensures DIGITS[d] as int == if d < 10 then '0' as int + d else 'a' as int + d - 10
  {
    assert DIGITS[0] == '0' && DIGITS[1] == '1' && DIGITS[2] == '2' && DIGITS[3] == '3' && DIGITS[4] == '4';
    assert DIGITS[5] == '5' && DIGITS[6] == '6' && DIGITS[7] == '7' && DIGITS[8] == '8' && DIGITS[9] == '9';
    assert DIGITS[10] == 'a' && DIGITS[11] == 'b' && DIGITS[12] == 'c';
    assert DIGITS[13] == 'd' && DIGITS[14] == 'e' && DIGITS[15] == 'f';
  }

  /** The two characters of a byte, its high digit first; only '0' to '9' and 'a' to
      'f' are written. */
  lemma {:induction false} HexTextAt(bytes: seq<byte>, i: nat)
    requires i < |bytes|
    ensures var high, low := bytes[i] as int / 16, bytes[i] as int % 16;
      && HexText(bytes)[2 * i] as int == (if high < 10 then '0' as int + high else 'a' as int + high - 10)
      && HexText(bytes)[2 * i + 1] as int == (if low < 10 then '0' as int + low else 'a' as int + low - 10)
    decreases |bytes|
  {
    var n := |bytes| - 1;
    if i < n {
      HexTextAt(bytes[..n], i);
    } else {
      DigitIs(bytes[i] as int / 16);
      DigitIs(bytes[i] as int % 16);
    }
  }

  /** A text that ends before the last byte begins is refused. */
  lemma {:induction false} ShortTextThrows(s: string, n: nat)
    requires n > 0 && |s| <= 2 * (n - 1)
    ensures ReadBytes(s, n) == None
  {}

  /** The loop that writes the digits. */
  method WriteHex(bytes: seq<byte>) returns (ss: string)
    ensures ss == HexText(bytes)
  {
    ss := "";
    for i := 0 to |bytes|
      invariant ss == HexText(bytes[..i])
    {
      assert bytes[..i + 1][..i] == bytes[..i];
      var b := bytes[i] as int;
      ss := ss + [DIGITS[b / 16], DIGITS[b % 16]];
      assert [DIGITS[b / 16], DIGITS[b % 16]] == TwoDigits(bytes[i]);
    }
    assert bytes[..|bytes|] == bytes;
  }

  /** The loop that reads them. */
  method ReadHex(s: string, size: nat) returns (bytes: Option<seq<byte>>)
    ensures bytes == ReadBytes(s, size)
  {
    var read: seq<byte> := [];
    for i := 0 to size
      invariant ReadBytes(s, i) == Some(read)
    {
      var b := ReadByte(s, i);
      if b.None? {
        NoneStays(s, i + 1, size);
        return None;
      }
      read := read + [b.value];
    }
    return Some(read);
  }

  lemma {:induction false} NoneStays(s: string, i: nat, n: nat)
    requires i <= n && ReadBytes(s, i) == None
    ensures ReadBytes(s, n) == None
    decreases n
  {
    if i == n {
    } else {
      NoneStays(s, i, n - 1);
    }
  }

  // ------------------------------------------------------------ codec parameters

  const VIDEO := 0
  const AUDIO := 1
  const SUBTITLE := 3

  predicate Common(f: Field) {
    f.CodecType? || f.CodecId? || f.CodecTag? || f.BitRate? || f.BitsPerCodedSample? || f.BitsPerRawSample?
    || f.Profile? || f.Level? || f.ExtradataSize?
  }

  /** The members that the JSON of a media type carries besides. */
  predicate Further(mediaType: int, f: Field) {
    if mediaType == VIDEO then
      f.Format? || f.Width? || f.Height? || f.FieldOrder? || f.ColorRange? || f.ColorPrimaries? || f.ColorTrc?
      || f.ColorSpace? || f.ChromaLocation? || f.VideoDelay?
    else if mediaType == AUDIO then
      f.Format? || f.ChannelLayout? || f.Channels? || f.SampleRate? || f.BlockAlign? || f.FrameSize?
      || f.InitialPadding? || f.TrailingPadding? || f.SeekPreroll?
    else if mediaType == SUBTITLE then f.Width? || f.Height?
    else false
  }

  predicate Travels(mediaType: int, f: Field) {
    Common(f) || Further(mediaType, f)
  }

  function CommonSet(): set<Field> {
    set f: Field | Common(f)
  }

  function FurtherSet(mediaType: int): set<Field> {
    set f: Field | Further(mediaType, f)
  }

  /** num, den: the sample aspect ratio; extradata: the bytes pointed to. */
  datatype AVCodecParameters = AVCodecParameters(
    ints: map<Field, int>, num: int, den: int, extradata: Option<seq<byte>>)
  {
    ghost predicate Valid() {
      && (forall f: Field :: f in ints)
      && (extradata.Some? ==> |extradata.value| == if ints[ExtradataSize] > 0 then ints[ExtradataSize] else 0)
    }

    /** The size that is written: 0 for a null pointer. */
    function Size(): int
      requires ExtradataSize in ints
    {
      if extradata.Some? then ints[ExtradataSize] else 0
    }
  }

  /** to_json of the codec parameters. */
  function ToJson(par: AVCodecParameters): Json
    requires par.Valid()
  {
    var t := par.ints[CodecType];
    var written := par.ints[ExtradataSize := par.Size()];
    var numbers := map f: Field | f in CommonSet() + FurtherSet(t) :: Member(f) := Number(written[f]);
    var extradata := match par.extradata case Some(bytes) => Text(HexText(bytes)) case None => Null;
    var j := numbers[Extradata := extradata];
    Object(if t == VIDEO then
             j[SampleAspectRatio := Object(map[Num := Number(par.num), Den := Number(par.den)])]
           else j)
  }

  /** j.at(k).get_to(v): None: no such member, or not a number. */
  function NumberAt(j: Json, k: Key): Option<int> {
    if j.Object? && k in j.members && j.members[k].Number? then Some(j.members[k].n) else None
  }

  /** The get_to of several members: None: one of them throws. */
  function ReadNumbers(j: Json, fields: set<Field>, ints: map<Field, int>): (r: Option<map<Field, int>>)
    ensures r.Some? ==> forall f :: f in ints || f in fields ==> f in r.value
  {
    if forall f :: f in fields ==> NumberAt(j, Member(f)).Some? then
      Some(map f | f in ints.Keys + fields :: if f in fields then NumberAt(j, Member(f)).value else ints[f])
    else None
  }

  function ReadExtradata(j: Json, size: int, before: Option<seq<byte>>): Option<Option<seq<byte>>> {
    if size <= 0 then Some(before)
    else if j.Object? && Extradata in j.members && j.members[Extradata].Text? then
      match ReadBytes(j.members[Extradata].s, size)
      case None => None
      case Some(bytes) => Some(Some(bytes))
    else None
  }

  function ReadRatio(j: Json, mediaType: int, before: (int, int)): Option<(int, int)> {
    if mediaType != VIDEO then Some(before)
    else if j.Object? && SampleAspectRatio in j.members then
      var r := j.members[SampleAspectRatio];
      var num, den := NumberAt(r, Num), NumberAt(r, Den);
      if num.Some? && den.Some? then Some((num.value, den.value)) else None
    else None
  }

  /** from_json into the struct `to`; None: an exception. */
  function FromJson(j: Json, to: AVCodecParameters): Option<AVCodecParameters> {
    match ReadNumbers(j, CommonSet(), to.ints)
    case None => None
    case Some(common) =>
      assert CodecType in CommonSet() && ExtradataSize in CommonSet();
      match ReadExtradata(j, common[ExtradataSize], to.extradata)
      case None => None
      case Some(extradata) =>
        match ReadNumbers(j, FurtherSet(common[CodecType]), common)
        case None => None
        case Some(ints) =>
          match ReadRatio(j, common[CodecType], (to.num, to.den))
          case None => None
          case Some(ratio) => Some(AVCodecParameters(ints, ratio.0, ratio.1, extradata))
  }

  /** Every member of the media type is as written, and no other has changed; the
      extradata come with their size, when there are any. */
  ghost predicate ComesBack(r: AVCodecParameters, par: AVCodecParameters, to: AVCodecParameters)
    requires par.Valid() && to.Valid()
  {
    var t := par.ints[CodecType];
    && (forall f: Field :: f in r.ints)
    && (forall f: Field :: f != ExtradataSize ==>
          r.ints[f] == if Travels(t, f) then par.ints[f] else to.ints[f])
    && r.ints[ExtradataSize] == par.Size()
    && r.extradata == (if par.Size() > 0 then par.extradata else to.extradata)
    && (r.num, r.den) == if t == VIDEO then (par.num, par.den) else (to.num, to.den)
  }

  lemma InSets(t: int, f: Field)
    ensures f in CommonSet() + FurtherSet(t) <==> Common(f) || Further(t, f)
  {
    hide Common, Further;
  }

  lemma WrittenNumbers(par: AVCodecParameters, f: Field)
    requires par.Valid() && (Common(f) || Further(par.ints[CodecType], f))
    ensures NumberAt(ToJson(par), Member(f)) == Some(if f.ExtradataSize? then par.Size() else par.ints[f])
  {
    InSets(par.ints[CodecType], f);
    hide CommonSet, FurtherSet, Common, Further, HexText;
  }

  lemma ReadCommon(par: AVCodecParameters, to: AVCodecParameters)
    requires par.Valid() && to.Valid()
    ensures var r := ReadNumbers(ToJson(par), CommonSet(), to.ints);
            && r.Some?
            && forall f: Field :: r.value[f] == if f.ExtradataSize? then par.Size() else
                                   if Common(f) then par.ints[f] else to.ints[f]
  {
    hide ToJson, HexText;
    forall f | Common(f) ensures
      NumberAt(ToJson(par), Member(f)) == Some(if f.ExtradataSize? then par.Size() else par.ints[f])
    {
      WrittenNumbers(par, f);
    }
    hide NumberAt;
  }

  lemma ReadFurther(par: AVCodecParameters, ints: map<Field, int>)
    requires par.Valid() && forall f: Field :: f in ints
    ensures var t := par.ints[CodecType];
            var r := ReadNumbers(ToJson(par), FurtherSet(t), ints);
            && r.Some?
            && forall f: Field :: r.value[f] == if Further(t, f) then par.ints[f] else ints[f]
  {
    hide ToJson, HexText;
    var t := par.ints[CodecType];
    forall f | Further(t, f) ensures NumberAt(ToJson(par), Member(f)) == Some(par.ints[f]) {
      WrittenNumbers(par, f);
    }
    hide NumberAt, Further;
  }

  lemma ReadExtra(par: AVCodecParameters, before: Option<seq<byte>>)
    requires par.Valid()
    ensures ReadExtradata(ToJson(par), par.Size(), before) == Some(if par.Size() > 0 then par.extradata else before)
  {
    hide Common, Further, ReadBytes;
    if par.extradata.Some? {
      var bytes := par.extradata.value;
      HexRoundTrip(bytes, "");
      assert HexText(bytes) + "" == HexText(bytes);
    }
  }

  lemma RatioComesBack(par: AVCodecParameters, before: (int, int))
    requires par.Valid()
    ensures var t := par.ints[CodecType];
            ReadRatio(ToJson(par), t, before) == Some(if t == VIDEO then (par.num, par.den) else before)
  {
    hide Common, Further, HexText;
  }

  /** Reading the JSON of any codec parameters, into any struct, succeeds. */
  lemma ParametersComeBack(par: AVCodecParameters, to: AVCodecParameters)
    requires par.Valid() && to.Valid()
    ensures FromJson(ToJson(par), to).Some? && ComesBack(FromJson(ToJson(par), to).value, par, to)
  {
    hide ToJson, ReadNumbers, ReadExtradata, ReadRatio, HexText, CommonSet, FurtherSet;
    var j := ToJson(par);
    ReadCommon(par, to);
    var common := ReadNumbers(j, CommonSet(), to.ints).value;
    ReadFurther(par, common);
    ReadExtra(par, to.extradata);
    RatioComesBack(par, (to.num, to.den));
  }

  lemma SharedTravel(t: int)
    ensures
      && Travels(t, CodecType) && Travels(t, CodecId) && Travels(t, CodecTag) && Travels(t, BitRate)
      && Travels(t, BitsPerCodedSample) && Travels(t, BitsPerRawSample) && Travels(t, Profile) && Travels(t, Level)
  {}

  lemma FormatTravels()
    ensures
      && Travels(VIDEO, Format) && Travels(AUDIO, Format) && !Travels(SUBTITLE, Format)
  {}

  lemma PictureTravels()
    ensures
      && Travels(VIDEO, Width) && Travels(VIDEO, Height) && Travels(VIDEO, FieldOrder) && Travels(VIDEO, ColorRange)
      && Travels(VIDEO, ColorPrimaries) && Travels(VIDEO, ColorTrc) && Travels(VIDEO, ColorSpace)
      && Travels(VIDEO, ChromaLocation) && Travels(VIDEO, VideoDelay)
  {}

  lemma PictureStays(t: int)
    requires t != VIDEO
    ensures
      && !Travels(t, FieldOrder) && !Travels(t, ColorRange) && !Travels(t, ColorPrimaries) && !Travels(t, ColorTrc)
      && !Travels(t, ColorSpace) && !Travels(t, ChromaLocation) && !Travels(t, VideoDelay)
  {}

  lemma SizeTravels()
    ensures
      && Travels(SUBTITLE, Width) && Travels(SUBTITLE, Height)
    ensures !Travels(AUDIO, Width) && !Travels(AUDIO, Height)
  {}

  lemma SoundTravels()
    ensures
      && Travels(AUDIO, ChannelLayout) && Travels(AUDIO, Channels) && Travels(AUDIO, SampleRate)
      && Travels(AUDIO, BlockAlign) && Travels(AUDIO, FrameSize) && Travels(AUDIO, InitialPadding)
      && Travels(AUDIO, TrailingPadding) && Travels(AUDIO, SeekPreroll)
  {}

  lemma SoundStays(t: int)
    requires t != AUDIO
    ensures
      && !Travels(t, ChannelLayout) && !Travels(t, Channels) && !Travels(t, SampleRate) && !Travels(t, BlockAlign)
      && !Travels(t, FrameSize) && !Travels(t, InitialPadding) && !Travels(t, TrailingPadding)
      && !Travels(t, SeekPreroll)
  {}

  lemma NoneTravels(t: int)
    requires t !in {VIDEO, AUDIO, SUBTITLE}
    ensures
      && !Travels(t, Format) && !Travels(t, Width) && !Travels(t, Height)
  {}

  /** Video, member by member: those of every type and of a picture are as they were
      written, those of sound stay as they are in the struct. */
  lemma VideoComesBack(par: AVCodecParameters, to: AVCodecParameters) returns (r: AVCodecParameters)
    requires par.Valid() && to.Valid() && par.ints[CodecType] == VIDEO
    ensures FromJson(ToJson(par), to) == Some(r) && (forall f: Field :: f in r.ints)
    ensures
      && r.ints[CodecType] == par.ints[CodecType] && r.ints[CodecId] == par.ints[CodecId]
      && r.ints[CodecTag] == par.ints[CodecTag] && r.ints[BitRate] == par.ints[BitRate]
      && r.ints[BitsPerCodedSample] == par.ints[BitsPerCodedSample]
      && r.ints[BitsPerRawSample] == par.ints[BitsPerRawSample] && r.ints[Profile] == par.ints[Profile]
      && r.ints[Level] == par.ints[Level] && r.ints[Format] == par.ints[Format] && r.ints[Width] == par.ints[Width]
      && r.ints[Height] == par.ints[Height] && r.ints[FieldOrder] == par.ints[FieldOrder]
      && r.ints[ColorRange] == par.ints[ColorRange] && r.ints[ColorPrimaries] == par.ints[ColorPrimaries]
      && r.ints[ColorTrc] == par.ints[ColorTrc] && r.ints[ColorSpace] == par.ints[ColorSpace]
      && r.ints[ChromaLocation] == par.ints[ChromaLocation] && r.ints[VideoDelay] == par.ints[VideoDelay]
      && r.num == par.num && r.den == par.den
    ensures
      && r.ints[ChannelLayout] == to.ints[ChannelLayout] && r.ints[Channels] == to.ints[Channels]
      && r.ints[SampleRate] == to.ints[SampleRate] && r.ints[BlockAlign] == to.ints[BlockAlign]
      && r.ints[FrameSize] == to.ints[FrameSize] && r.ints[InitialPadding] == to.ints[InitialPadding]
      && r.ints[TrailingPadding] == to.ints[TrailingPadding] && r.ints[SeekPreroll] == to.ints[SeekPreroll]
  {
    hide FromJson, ToJson, Travels, Common, Further, HexText;
    ParametersComeBack(par, to);
    SharedTravel(par.ints[CodecType]);
    FormatTravels();
    PictureTravels();
    SoundStays(VIDEO);
    r := FromJson(ToJson(par), to).value;
  }

  /** Sound, member by member. */
  lemma AudioComesBack(par: AVCodecParameters, to: AVCodecParameters) returns (r: AVCodecParameters)
    requires par.Valid() && to.Valid() && par.ints[CodecType] == AUDIO
    ensures FromJson(ToJson(par), to) == Some(r) && (forall f: Field :: f in r.ints)
    ensures
      && r.ints[CodecType] == par.ints[CodecType] && r.ints[CodecId] == par.ints[CodecId]
      && r.ints[CodecTag] == par.ints[CodecTag] && r.ints[BitRate] == par.ints[BitRate]
      && r.ints[BitsPerCodedSample] == par.ints[BitsPerCodedSample]
      && r.ints[BitsPerRawSample] == par.ints[BitsPerRawSample] && r.ints[Profile] == par.ints[Profile]
      && r.ints[Level] == par.ints[Level] && r.ints[Format] == par.ints[Format]
      && r.ints[ChannelLayout] == par.ints[ChannelLayout] && r.ints[Channels] == par.ints[Channels]
      && r.ints[SampleRate] == par.ints[SampleRate] && r.ints[BlockAlign] == par.ints[BlockAlign]
      && r.ints[FrameSize] == par.ints[FrameSize] && r.ints[InitialPadding] == par.ints[InitialPadding]
      && r.ints[TrailingPadding] == par.ints[TrailingPadding] && r.ints[SeekPreroll] == par.ints[SeekPreroll]
      && r.num == to.num && r.den == to.den
    ensures
      && r.ints[Width] == to.ints[Width] && r.ints[Height] == to.ints[Height]
      && r.ints[FieldOrder] == to.ints[FieldOrder] && r.ints[ColorRange] == to.ints[ColorRange]
      && r.ints[ColorPrimaries] == to.ints[ColorPrimaries] && r.ints[ColorTrc] == to.ints[ColorTrc]
      && r.ints[ColorSpace] == to.ints[ColorSpace] && r.ints[ChromaLocation] == to.ints[ChromaLocation]
      && r.ints[VideoDelay] == to.ints[VideoDelay]
  {
    hide FromJson, ToJson, Travels, Common, Further, HexText;
    ParametersComeBack(par, to);
    SharedTravel(par.ints[CodecType]);
    FormatTravels();
    SizeTravels();
    SoundTravels();
    PictureStays(AUDIO);
    r := FromJson(ToJson(par), to).value;
  }

  /** A subtitle, member by member. */
  lemma SubtitleComesBack(par: AVCodecParameters, to: AVCodecParameters) returns (r: AVCodecParameters)
    requires par.Valid() && to.Valid() && par.ints[CodecType] == SUBTITLE
    ensures FromJson(ToJson(par), to) == Some(r) && (forall f: Field :: f in r.ints)
    ensures
      && r.ints[CodecType] == par.ints[CodecType] && r.ints[CodecId] == par.ints[CodecId]
      && r.ints[CodecTag] == par.ints[CodecTag] && r.ints[BitRate] == par.ints[BitRate]
      && r.ints[BitsPerCodedSample] == par.ints[BitsPerCodedSample]
      && r.ints[BitsPerRawSample] == par.ints[BitsPerRawSample] && r.ints[Profile] == par.ints[Profile]
      && r.ints[Level] == par.ints[Level] && r.ints[Width] == par.ints[Width] && r.ints[Height] == par.ints[Height]
      && r.num == to.num && r.den == to.den
    ensures
      && r.ints[Format] == to.ints[Format] && r.ints[FieldOrder] == to.ints[FieldOrder]
      && r.ints[ColorRange] == to.ints[ColorRange] && r.ints[ColorPrimaries] == to.ints[ColorPrimaries]
      && r.ints[ColorTrc] == to.ints[ColorTrc] && r.ints[ColorSpace] == to.ints[ColorSpace]
      && r.ints[ChromaLocation] == to.ints[ChromaLocation] && r.ints[VideoDelay] == to.ints[VideoDelay]
      && r.ints[ChannelLayout] == to.ints[ChannelLayout] && r.ints[Channels] == to.ints[Channels]
      && r.ints[SampleRate] == to.ints[SampleRate] && r.ints[BlockAlign] == to.ints[BlockAlign]
      && r.ints[FrameSize] == to.ints[FrameSize] && r.ints[InitialPadding] == to.ints[InitialPadding]
      && r.ints[TrailingPadding] == to.ints[TrailingPadding] && r.ints[SeekPreroll] == to.ints[SeekPreroll]
  {
    hide FromJson, ToJson, Travels, Common, Further, HexText;
    ParametersComeBack(par, to);
    SharedTravel(par.ints[CodecType]);
    FormatTravels();
    SizeTravels();
    PictureStays(SUBTITLE);
    SoundStays(SUBTITLE);
    r := FromJson(ToJson(par), to).value;
  }

  /** Any other type, member by member. */
  lemma OthersComeBack(par: AVCodecParameters, to: AVCodecParameters) returns (r: AVCodecParameters)
    requires par.Valid() && to.Valid() && par.ints[CodecType] !in {VIDEO, AUDIO, SUBTITLE}
    ensures FromJson(ToJson(par), to) == Some(r) && (forall f: Field :: f in r.ints)
    ensures
      && r.ints[CodecType] == par.ints[CodecType] && r.ints[CodecId] == par.ints[CodecId]
      && r.ints[CodecTag] == par.ints[CodecTag] && r.ints[BitRate] == par.ints[BitRate]
      && r.ints[BitsPerCodedSample] == par.ints[BitsPerCodedSample]
      && r.ints[BitsPerRawSample] == par.ints[BitsPerRawSample] && r.ints[Profile] == par.ints[Profile]
      && r.ints[Level] == par.ints[Level]
      && r.num == to.num && r.den == to.den
    ensures
      && r.ints[Format] == to.ints[Format] && r.ints[Width] == to.ints[Width] && r.ints[Height] == to.ints[Height]
      && r.ints[FieldOrder] == to.ints[FieldOrder] && r.ints[ColorRange] == to.ints[ColorRange]
      && r.ints[ColorPrimaries] == to.ints[ColorPrimaries] && r.ints[ColorTrc] == to.ints[ColorTrc]
      && r.ints[ColorSpace] == to.ints[ColorSpace] && r.ints[ChromaLocation] == to.ints[ChromaLocation]
      && r.ints[VideoDelay] == to.ints[VideoDelay] && r.ints[ChannelLayout] == to.ints[ChannelLayout]
      && r.ints[Channels] == to.ints[Channels] && r.ints[SampleRate] == to.ints[SampleRate]
      && r.ints[BlockAlign] == to.ints[BlockAlign] && r.ints[FrameSize] == to.ints[FrameSize]
      && r.ints[InitialPadding] == to.ints[InitialPadding] && r.ints[TrailingPadding] == to.ints[TrailingPadding]
      && r.ints[SeekPreroll] == to.ints[SeekPreroll]
  {
    hide FromJson, ToJson, Travels, Common, Further, HexText;
    ParametersComeBack(par, to);
    SharedTravel(par.ints[CodecType]);
    NoneTravels(par.ints[CodecType]);
    PictureStays(par.ints[CodecType]);
    SoundStays(par.ints[CodecType]);
    r := FromJson(ToJson(par), to).value;
  }

  /** The object has exactly the members that travel, the extradata with their size, and
      for video the aspect ratio. */
  lemma WhatIsWritten(par: AVCodecParameters, k: Key)
    requires par.Valid()
    ensures var t, j := par.ints[CodecType], ToJson(par);
      && j.Object?
      && (k in j.members <==>
            || (k.Member? && Travels(t, k.field)) || k == Extradata || (t == VIDEO && k == SampleAspectRatio))
      && (k in j.members && k.Member? && k.field != ExtradataSize ==> j.members[k] == Number(par.ints[k.field]))
      && j.members[Extradata] == (if par.extradata.Some? then Text(HexText(par.extradata.value)) else Null)
      && Member(ExtradataSize) in j.members
      && j.members[Member(ExtradataSize)] == Number(if par.extradata.Some? then par.ints[ExtradataSize] else 0)
      && (t == VIDEO ==> j.members[SampleAspectRatio] == Object(map[Num := Number(par.num), Den := Number(par.den)]))
  {
    if k.Member? { InSets(par.ints[CodecType], k.field); }
    InSets(par.ints[CodecType], ExtradataSize);
    assert Common(ExtradataSize);
    hide HexText, CommonSet, FurtherSet, Common, Further;
  }

  lemma MembersWritten(par: AVCodecParameters)
    requires par.Valid()
    ensures ToJson(par).Object?
    ensures forall f: Field :: Member(f) in ToJson(par).members <==> Travels(par.ints[CodecType], f)
  {
    forall f: Field
      ensures ToJson(par).Object? && (Member(f) in ToJson(par).members <==> Travels(par.ints[CodecType], f))
    {
      WhatIsWritten(par, Member(f));
    }
    hide ToJson, Travels;
  }

  /** Nothing of sound is in the object of anything else. */
  lemma NoSoundWritten(par: AVCodecParameters)
    requires par.Valid() && par.ints[CodecType] != AUDIO
    ensures ToJson(par).Object?
    ensures var j := ToJson(par).members;
      && Member(ChannelLayout) !in j && Member(Channels) !in j && Member(SampleRate) !in j && Member(BlockAlign) !in j
      && Member(FrameSize) !in j && Member(InitialPadding) !in j && Member(TrailingPadding) !in j
      && Member(SeekPreroll) !in j
  {
    SoundStays(par.ints[CodecType]);
    MembersWritten(par);
    hide ToJson, Travels;
  }

  /** Nothing of a picture is in the object of anything but video. */
  lemma NoPictureWritten(par: AVCodecParameters)
    requires par.Valid() && par.ints[CodecType] != VIDEO
    ensures ToJson(par).Object?
    ensures var j := ToJson(par).members;
      && Member(FieldOrder) !in j && Member(ColorRange) !in j && Member(ColorPrimaries) !in j
      && Member(ColorTrc) !in j && Member(ColorSpace) !in j && Member(ChromaLocation) !in j
      && Member(VideoDelay) !in j
  {
    PictureStays(par.ints[CodecType]);
    MembersWritten(par);
    hide ToJson, Travels;
  }

  /** Sound has no width and height. */
  lemma NoSizeWritten(par: AVCodecParameters)
    requires par.Valid() && par.ints[CodecType] == AUDIO
    ensures ToJson(par).Object?
    ensures var j := ToJson(par).members;
      && Member(Width) !in j && Member(Height) !in j
  {
    SizeTravels();
    MembersWritten(par);
    hide ToJson, Travels;
  }

  /** A subtitle has no format. */
  lemma NoFormatWritten(par: AVCodecParameters)
    requires par.Valid() && par.ints[CodecType] == SUBTITLE
    ensures ToJson(par).Object?
    ensures var j := ToJson(par).members;
      && Member(Format) !in j
  {
    FormatTravels();
    MembersWritten(par);
    hide ToJson, Travels;
  }

  /** Types other than these three have none of them. */
  lemma NothingElseWritten(par: AVCodecParameters)
    requires par.Valid() && par.ints[CodecType] !in {VIDEO, AUDIO, SUBTITLE}
    ensures ToJson(par).Object?
    ensures var j := ToJson(par).members;
      && Member(Format) !in j && Member(Width) !in j && Member(Height) !in j
  {
    NoneTravels(par.ints[CodecType]);
    MembersWritten(par);
    hide ToJson, Travels;
  }

  /** A fresh struct gets the extradata and their size back exactly as they were,
      unless there are none behind a pointer or some size without a pointer. */
  lemma ExtradataComeBackIff(par: AVCodecParameters, blank: AVCodecParameters)
    requires par.Valid() && blank.Valid() && blank.extradata == None
    ensures FromJson(ToJson(par), blank).Some?
    ensures var r := FromJson(ToJson(par), blank).value;
            r.Valid() && (r.extradata == par.extradata && r.ints[ExtradataSize] == par.ints[ExtradataSize]
                          <==> (if par.extradata.Some? then par.ints[ExtradataSize] > 0 else par.ints[ExtradataSize] == 0))
  {
    ParametersComeBack(par, blank);
    hide FromJson, ToJson;
  }

  // ------------------------------------------------------------------- the streams

  /** av_get_media_type_string answers for these. */
  predicate Named(t: int) {
    0 <= t < 5
  }

  const UNKNOWN := -1
  const NB := 5

  type Subs = map<int, AVCodecParameters>

  ghost predicate SubsOk(subs: Subs) {
    forall t :: t in subs ==> Named(t) && subs[t].Valid()
  }

  /** The JSON object of one stream. */
  function StreamJson(id: string, subs: Subs): Json
    requires SubsOk(subs)
  {
    Object(map[Id := Text(id)] + map t | t in subs :: Media(t) := Object(map[Codecpar := ToJson(subs[t])]))
  }

  /** An entry of the stream map. */
  datatype Stream = Stream(id: string, subs: Subs)

  ghost predicate StreamsOk(streams: seq<Stream>) {
    forall i :: 0 <= i < |streams| ==> SubsOk(streams[i].subs)
  }

  function StreamItems(streams: seq<Stream>): (r: seq<Json>)
    requires StreamsOk(streams)
    ensures |r| == |streams|
  {
    if streams == [] then []
    else
      var s := streams[|streams| - 1];
      StreamItems(streams[..|streams| - 1]) + [StreamJson(s.id, s.subs)]
  }

  /** The stream map, in whatever order it is gone through: null when it is empty. */
  function StreamsJson(streams: seq<Stream>): Json
    requires StreamsOk(streams)
  {
    if streams == [] then Null else Array(StreamItems(streams))
  }

  /** None in subs: a null pointer. */
  datatype Info = Info(id: string, subs: map<int, Option<AVCodecParameters>>)

  /** The sub-infos of the types below t. */
  function SubsFrom(j: Json, blank: AVCodecParameters, t: int): Option<map<int, Option<AVCodecParameters>>>
    requires t >= UNKNOWN
    decreases t - UNKNOWN
  {
    if t == UNKNOWN then Some(map[])
    else
      match SubsFrom(j, blank, t - 1)
      case None => None
      case Some(before) =>
        if !Named(t - 1) || !j.Object? || Media(t - 1) !in j.members then Some(before)
        else
          match SubFrom(j.members[Media(t - 1)], blank)
          case None => None
          case Some(sub) => Some(before[t - 1 := sub])
  }

  function SubFrom(j: Json, blank: AVCodecParameters): Option<Option<AVCodecParameters>> {
    if j.Null? then Some(None)
    else if j.Object? && Codecpar in j.members then
      match FromJson(j.members[Codecpar], blank)
      case None => None
      case Some(par) => Some(Some(par))
    else None
  }

  function InfoFrom(j: Json, blank: AVCodecParameters): Option<Info> {
    if !j.Object? || Id !in j.members || !j.members[Id].Text? then None
    else
      match SubsFrom(j, blank, NB + 1)
      case None => None
      case Some(subs) => Some(Info(j.members[Id].s, subs))
  }

  function InfoList(items: seq<Json>, blank: AVCodecParameters): Option<seq<Info>> {
    if items == [] then Some([])
    else
      match InfoList(items[..|items| - 1], blank)
      case None => None
      case Some(before) =>
        match InfoFrom(items[|items| - 1], blank)
        case None => None
        case Some(info) => Some(before + [info])
  }

  /** A range-for over null runs no round. */
  function InfosFrom(j: Json, blank: AVCodecParameters): Option<seq<Info>> {
    if j.Null? then Some([]) else if j.Array? then InfoList(j.items, blank) else None
  }

  /** The info that a stream comes back as. */
  ghost predicate InfoOf(info: Info, s: Stream, blank: AVCodecParameters)
    requires SubsOk(s.subs) && blank.Valid()
  {
    && info.id == s.id
    && (forall t :: t in info.subs <==> t in s.subs)
    && (forall t :: t in s.subs ==> SubOf(info.subs[t], s.subs[t], blank))
  }

  ghost predicate SubOf(sub: Option<AVCodecParameters>, par: AVCodecParameters, blank: AVCodecParameters)
    requires par.Valid() && blank.Valid()
  {
    sub.Some? && ComesBack(sub.value, par, blank)
  }

  lemma OneSub(par: AVCodecParameters, blank: AVCodecParameters)
    requires par.Valid() && blank.Valid()
    ensures var r := SubFrom(Object(map[Codecpar := ToJson(par)]), blank);
            r.Some? && SubOf(r.value, par, blank)
  {
    ParametersComeBack(par, blank);
    hide ToJson, FromJson, ComesBack;
  }

  lemma StreamMember(id: string, subs: Subs, t: int)
    requires SubsOk(subs)
    ensures var j := StreamJson(id, subs);
            && j.Object? && Id in j.members && j.members[Id] == Text(id)
            && (Media(t) in j.members <==> t in subs)
            && (t in subs ==> j.members[Media(t)] == Object(map[Codecpar := ToJson(subs[t])]))
  {
    hide ToJson;
  }

  lemma {:induction false} SubsComeBack(id: string, subs: Subs, blank: AVCodecParameters, t: int)
    requires SubsOk(subs) && blank.Valid() && t >= UNKNOWN
    ensures var r := SubsFrom(StreamJson(id, subs), blank, t);
            && r.Some?
            && (forall u :: u in r.value <==> u in subs && u < t)
            && (forall u :: u in r.value ==> SubOf(r.value[u], subs[u], blank))
    decreases t - UNKNOWN
  {
    hide SubOf, SubFrom, ToJson, StreamJson;
    if t == UNKNOWN {
    } else {
      SubsComeBack(id, subs, blank, t - 1);
      StreamMember(id, subs, t - 1);
      if t - 1 in subs { OneSub(subs[t - 1], blank); }
    }
  }

  lemma InfoComesBack(s: Stream, blank: AVCodecParameters)
    requires SubsOk(s.subs) && blank.Valid()
    ensures var r := InfoFrom(StreamJson(s.id, s.subs), blank); r.Some? && InfoOf(r.value, s, blank)
  {
    hide SubOf, SubsFrom, ToJson, StreamJson;
    StreamMember(s.id, s.subs, 0);
    SubsComeBack(s.id, s.subs, blank, NB + 1);
  }

  lemma {:induction false} ItemsComeBack(streams: seq<Stream>, blank: AVCodecParameters)
    requires StreamsOk(streams) && blank.Valid()
    ensures var r := InfoList(StreamItems(streams), blank);
            && r.Some? && |r.value| == |streams|
            && forall i :: 0 <= i < |streams| ==> InfoOf(r.value[i], streams[i], blank)
    decreases |streams|
  {
    hide InfoOf, InfoFrom, StreamJson, SubsOk;
    if streams == [] {
    } else {
      var n := |streams| - 1;
      ItemsComeBack(streams[..n], blank);
      InfoComesBack(streams[n], blank);
    }
  }

  /** The stream map, written in any order and read again: as many infos, each with
      the id and the types of its stream, and their parameters as above. */
  lemma StreamsComeBack(streams: seq<Stream>, blank: AVCodecParameters)
    requires StreamsOk(streams) && blank.Valid()
    ensures var r := InfosFrom(StreamsJson(streams), blank);
            && r.Some? && |r.value| == |streams|
            && forall i :: 0 <= i < |streams| ==> InfoOf(r.value[i], streams[i], blank)
  {
    hide InfoOf, InfoList, StreamItems, SubsOk;
    ItemsComeBack(streams, blank);
  }

  /** The loop over the stream map: push_back turns null into an array. */
  method WriteStreams(streams: seq<Stream>) returns (j: Json)
    requires StreamsOk(streams)
    ensures j == StreamsJson(streams)
  {
    hide SubsOk, StreamJson;
    j := Null;
    for i := 0 to |streams|
      invariant StreamsOk(streams[..i]) && j == StreamsJson(streams[..i])
    {
      var s := StreamJson(streams[i].id, streams[i].subs);
      assert streams[..i + 1][..i] == streams[..i];
      j := Array((if j.Null? then [] else j.items) + [s]);
    }
    assert streams[..|streams|] == streams;
  }

  /** from_json of one stream: the loop over all media types. */
  method ReadInfo(j: Json, blank: AVCodecParameters) returns (info: Option<Info>)
    ensures info == InfoFrom(j, blank)
  {
    hide SubFrom;
    if !j.Object? || Id !in j.members || !j.members[Id].Text? {
      return None;
    }
    var subs: map<int, Option<AVCodecParameters>> := map[];
    var t := UNKNOWN;
    while t <= NB
      invariant UNKNOWN <= t <= NB + 1 && SubsFrom(j, blank, t) == Some(subs)
    {
      if Named(t) && Media(t) in j.members {
        var sub := SubFrom(j.members[Media(t)], blank);
        if sub.None? {
          NoSubsStays(j, blank, t + 1, NB + 1);
          return None;
        }
        subs := subs[t := sub.value];
      }
      t := t + 1;
    }
    return Some(Info(j.members[Id].s, subs));
  }

  lemma {:induction false} NoSubsStays(j: Json, blank: AVCodecParameters, t: int, u: int)
    requires UNKNOWN <= t <= u && SubsFrom(j, blank, t) == None
    ensures SubsFrom(j, blank, u) == None
    decreases u - t
  {
    if t == u {
    } else {
      NoSubsStays(j, blank, t, u - 1);
    }
  }
}
