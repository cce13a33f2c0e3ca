/**
 Audio formats and their textual form (src/pcm/AudioFormat.cxx, src/pcm/AudioParser.cxx,
 src/pcm/SampleFormat.cxx).
 */
module AudioFormat {
  import opened Prelude
  import opened DecimalText

  datatype SampleFormat = UNDEFINED | S8 | S16 | S24_P32 | S32 | FLOAT | DSD

  datatype AudioFormat = AudioFormat(sampleRate: nat, format: SampleFormat, channels: nat)

  const UINT32: nat := 0x1_0000_0000
  const MAX_CHANNELS: nat := 8

  /** The values that the structure can hold. */
  predicate Representable(f: AudioFormat) { f.sampleRate < UINT32 && f.channels < 256 }

  predicate ValidRate(r: nat) { 0 < r < 0x4000_0000 }

  predicate ValidChannels(n: nat) { 1 <= n <= MAX_CHANNELS }

  predicate IsValid(f: AudioFormat) { ValidRate(f.sampleRate) && f.format != UNDEFINED && ValidChannels(f.channels) }

  predicate IsMaskValid(f: AudioFormat) {
    (f.sampleRate == 0 || ValidRate(f.sampleRate)) && (f.channels == 0 || ValidChannels(f.channels))
  }

  // --- masks -----------------------------------------------------------------------------

  /** AudioFormat::WithMask and ApplyMask. */
  function WithMask(f: AudioFormat, mask: AudioFormat): AudioFormat {
    AudioFormat(
      if mask.sampleRate != 0 then mask.sampleRate else f.sampleRate,
      if mask.format != UNDEFINED then mask.format else f.format,
      if mask.channels != 0 then mask.channels else f.channels)
  }

  /** ApplyMask: what the mask sets is the mask's, the rest is the format's. */
  method ApplyMask(f: AudioFormat, mask: AudioFormat) returns (g: AudioFormat)
    requires IsValid(f) && IsMaskValid(mask)
    ensures g == WithMask(f, mask) && IsValid(g)
    ensures mask.sampleRate != 0 ==> g.sampleRate == mask.sampleRate
    ensures mask.format != UNDEFINED ==> g.format == mask.format
    ensures mask.channels != 0 ==> g.channels == mask.channels
    ensures mask.sampleRate == 0 ==> g.sampleRate == f.sampleRate
    ensures mask.format == UNDEFINED ==> g.format == f.format
    ensures mask.channels == 0 ==> g.channels == f.channels
  {
    g := f;
    if mask.sampleRate != 0 {
      g := g.(sampleRate := mask.sampleRate);
    }
    if mask.format != UNDEFINED {
      g := g.(format := mask.format);
    }
    if mask.channels != 0 {
      g := g.(channels := mask.channels);
    }
  }

  /** The format has everything that the mask sets. */
  predicate MatchMask(f: AudioFormat, mask: AudioFormat) {
    && (mask.sampleRate == 0 || f.sampleRate == mask.sampleRate)
    && (mask.format == UNDEFINED || f.format == mask.format)
    && (mask.channels == 0 || f.channels == mask.channels)
  }

  /** A masked format is valid, matches the mask, and is the only matching format that agrees
      with the original wherever the mask is silent. */
  lemma MaskIsProjection(f: AudioFormat, mask: AudioFormat, g: AudioFormat)
    requires IsValid(f) && IsMaskValid(mask)
    ensures IsValid(WithMask(f, mask)) && MatchMask(WithMask(f, mask), mask)
    ensures MatchMask(f, mask) <==> WithMask(f, mask) == f
    ensures g == WithMask(f, mask) <==>
            && MatchMask(g, mask)
            && (mask.sampleRate == 0 ==> g.sampleRate == f.sampleRate)
            && (mask.format == UNDEFINED ==> g.format == f.format)
            && (mask.channels == 0 ==> g.channels == f.channels)
  {
  }

  // --- printing --------------------------------------------------------------------------

  function FormatName(f: SampleFormat): string {
    match f
    case UNDEFINED => "?"
    case S8 => "8"
    case S16 => "16"
    case S24_P32 => "24"
    case S32 => "32"
    case FLOAT => "f"
    case DSD => "dsd"
  }

  /** The shortcut for DSD is used. */
  predicate IsShort(f: AudioFormat) { f.format == DSD && f.sampleRate > 0 && f.sampleRate % 44100 == 0 }

  /** af.sample_rate * 8 / 44100, in 32 bits. */
  function DsdNumber(rate: nat): nat { rate * 8 % UINT32 / 44100 }

  function ChannelText(channels: nat): string { if channels > 0 then Decimal(channels) else "*" }

  function RateText(rate: nat): string { if rate > 0 then Decimal(rate) else "*" }

  function FormatText(f: SampleFormat): string { if f != UNDEFINED then FormatName(f) else "*" }

  /** Everything before the channels. */
  function Header(f: AudioFormat): string {
    if IsShort(f) then "dsd" + Decimal(DsdNumber(f.sampleRate)) + ":"
    else RateText(f.sampleRate) + ":" + FormatText(f.format) + ":"
  }

  function ToString(f: AudioFormat): string { Header(f) + ChannelText(f.channels) }

  /** The text and its terminator fit in the buffer. */
  lemma ToStringFits(f: AudioFormat)
    requires Representable(f)
    ensures |ToString(f)| + 1 <= 24
  {
    DecimalLength(f.sampleRate, 10, 10_000_000_000);
    DecimalLength(DsdNumber(f.sampleRate), 10, 10_000_000_000);
    DecimalLength(f.channels, 3, 1000);
  }

  /** sprintf(p, "%s", text): the text and a NUL are written, and p moves to the NUL. */
  method Append(buffer: array<char>, p: nat, text: string) returns (end: nat)
    requires p + |text| < buffer.Length
    modifies buffer
    ensures end == p + |text| && buffer[p..end] == text && buffer[end] == '\0'
    ensures buffer[..p] == old(buffer[..p])
  {
    for i := 0 to |text|
      invariant buffer[..p] == old(buffer[..p])
      invariant forall j :: 0 <= j < i ==> buffer[p + j] == text[j]
    {
      buffer[p + i] := text[i];
    }
    buffer[p + |text|] := '\0';
    end := p + |text|;
  }

  /** ToString, as it fills its buffer of 24 characters. */
  method Print(f: AudioFormat, buffer: array<char>) returns (end: nat)
    requires Representable(f) && buffer.Length == 24
    modifies buffer
    ensures end < 24 && buffer[..end] == ToString(f) && buffer[end] == '\0'
  {
    ToStringFits(f);
    var p := Append(buffer, 0, Header(f));
    assert buffer[..p] == buffer[0..p];
    end := Append(buffer, p, ChannelText(f.channels));
    assert buffer[..end] == buffer[..p] + buffer[p..end];
  }

  // --- parsing ---------------------------------------------------------------------------

  datatype Error =
    | NoRate | InvalidRate | FormatMissing | NoFormat | InvalidFormat
    | ChannelsMissing | NoChannels | InvalidChannels | ExtraData

  datatype Result<T> = Ok(value: T) | Err(error: Error)

  predicate StartsWith(s: string, c: char) { s != [] && s[0] == c }

  /** ParseSampleRate: the rate and what follows it.  The value is cut to 32 bits. */
  function ParseSampleRate(src: string, mask: bool): Result<(nat, string)> {
    if mask && StartsWith(src, '*') then Ok((0, src[1..])) else
    match Strtoul(src)
    case None => Err(NoRate)
    case Some((value, end)) => if ValidRate(value % UINT32) then Ok((value % UINT32, end)) else Err(InvalidRate)
  }

  function ParseSampleFormat(src: string, mask: bool): Result<(SampleFormat, string)> {
    if mask && StartsWith(src, '*') then Ok((UNDEFINED, src[1..])) else
    if StartsWith(src, 'f') then Ok((FLOAT, src[1..])) else
    if "dsd" <= src then Ok((DSD, src[3..])) else
    match Strtoul(src)
    case None => Err(NoFormat)
    case Some((value, end)) =>
      if value == 8 then Ok((S8, end)) else
      if value == 16 then Ok((S16, end)) else
      if value == 24 then Ok((S24_P32, if "_3" <= end then end[2..] else end)) else
      if value == 32 then Ok((S32, end)) else
      Err(InvalidFormat)
  }

  function ParseChannelCount(src: string, mask: bool): Result<(nat, string)> {
    if mask && StartsWith(src, '*') then Ok((0, src[1..])) else
    match Strtoul(src)
    case None => Err(NoChannels)
    case Some((value, end)) => if ValidChannels(value % UINT32) then Ok((value % UINT32, end)) else Err(InvalidChannels)
  }

  /** The channel count must be the end of the text. */
  function ParseLast(rate: nat, format: SampleFormat, src: string, mask: bool): Result<AudioFormat> {
    match ParseChannelCount(src, mask)
    case Err(e) => Err(e)
    case Ok((channels, end)) => if end == [] then Ok(AudioFormat(rate, format, channels)) else Err(ExtraData)
  }

  /** A number after "dsd" that implies the sample rate. */
  predicate IsDsdShortcut(src: string) {
    "dsd" <= src &&
    match Strtoul(src[3..])
    case None => false
    case Some((value, end)) => StartsWith(end, ':') && 32 <= value <= 4096 && value % 2 == 0
  }

  function ParseLong(src: string, mask: bool): Result<AudioFormat> {
    match ParseSampleRate(src, mask)
    case Err(e) => Err(e)
    case Ok((rate, s)) =>
      if !StartsWith(s, ':') then Err(FormatMissing) else
      match ParseSampleFormat(s[1..], mask)
      case Err(e) => Err(e)
      case Ok((format, t)) =>
        if !StartsWith(t, ':') then Err(ChannelsMissing) else ParseLast(rate, format, t[1..], mask)
  }

  /** ParseAudioFormat */
  function Parse(src: string, mask: bool): Result<AudioFormat> {
    if IsDsdShortcut(src) then
      var (value, end) := Strtoul(src[3..]).value;
      ParseLast(value * 44100 / 8, DSD, end[1..], mask)
    else ParseLong(src, mask)
  }

  predicate ValidFor(f: AudioFormat, mask: bool) { if mask then IsMaskValid(f) else IsValid(f) }

  lemma ChannelsAreValid(rate: nat, format: SampleFormat, src: string, mask: bool)
    ensures var r := ParseLast(rate, format, src, mask);
            r.Ok? ==> r.value.sampleRate == rate && r.value.format == format &&
                      (ValidChannels(r.value.channels) || (mask && r.value.channels == 0))
  {
  }

  lemma RateIsValid(src: string, mask: bool)
    ensures var r := ParseSampleRate(src, mask);
            r.Ok? ==> ValidRate(r.value.0) || (mask && r.value.0 == 0)
  {
  }

  lemma FormatIsValid(src: string, mask: bool)
    ensures var r := ParseSampleFormat(src, mask);
            r.Ok? && r.value.0 == UNDEFINED ==> mask
  {
  }

  lemma LongIsValid(src: string, mask: bool)
    ensures var r := ParseLong(src, mask); r.Ok? ==> ValidFor(r.value, mask)
  {
    RateIsValid(src, mask);
    match ParseSampleRate(src, mask)
    case Err(e) =>
    case Ok((rate, s)) =>
      if StartsWith(s, ':') {
        FormatIsValid(s[1..], mask);
        match ParseSampleFormat(s[1..], mask)
        case Err(e) =>
        case Ok((format, t)) =>
          if StartsWith(t, ':') {
            ChannelsAreValid(rate, format, t[1..], mask);
          }
      }
  }

  /** Whatever the text, what is parsed is valid. */
  lemma ParsedIsValid(src: string, mask: bool)
    ensures var r := Parse(src, mask); r.Ok? ==> ValidFor(r.value, mask)
  {
    if IsDsdShortcut(src) {
      var (value, end) := Strtoul(src[3..]).value;
      ChannelsAreValid(value * 44100 / 8, DSD, end[1..], mask);
    } else {
      LongIsValid(src, mask);
    }
  }

  // --- the round trip --------------------------------------------------------------------

  lemma ChannelsRoundTrip(rate: nat, format: SampleFormat, channels: nat, mask: bool)
    requires channels == 0 || ValidChannels(channels)
    ensures ParseLast(rate, format, ChannelText(channels), mask) ==
            if channels == 0 && !mask then Err(NoChannels) else Ok(AudioFormat(rate, format, channels))
  {
    if channels > 0 {
      StrtoulOfDecimal(channels, []);
      assert Decimal(channels) + [] == Decimal(channels);
    } else {
      StrtoulRefuses("*");
    }
  }

  lemma FormatRoundTrip(format: SampleFormat, rest: string, mask: bool)
    requires StartsWith(rest, ':')
    ensures ParseSampleFormat(FormatText(format) + rest, mask) ==
            if format == UNDEFINED && !mask then Err(NoFormat) else Ok((format, rest))
  {
    var s := FormatText(format) + rest;
    if format == UNDEFINED {
      assert s[1..] == rest;
      StrtoulRefuses(s);
    } else if format == FLOAT || format == DSD {
      assert s[|FormatText(format)|..] == rest;
    } else {
      WidthRoundTrip(format, rest, mask);
    }
  }

  /** The bits of an integer format. */
  function Width(format: SampleFormat): nat {
    match format
    case S8 => 8
    case S16 => 16
    case S24_P32 => 24
    case _ => 32
  }

  lemma WidthRoundTrip(format: SampleFormat, rest: string, mask: bool)
    requires format != UNDEFINED && format != FLOAT && format != DSD && StartsWith(rest, ':')
    ensures ParseSampleFormat(FormatText(format) + rest, mask) == Ok((format, rest))
  {
    assert FormatText(format) == Decimal(Width(format));
    NumberRoundTrip(Width(format), FormatText(format), rest);
  }

  lemma NumberRoundTrip(n: nat, text: string, rest: string)
    requires n < 100 && text == Decimal(n) && StartsWith(rest, ':')
    ensures Strtoul(text + rest) == Some((n, rest)) && IsDigit((text + rest)[0])
  {
    StrtoulOfDecimal(n, rest);
  }

  lemma RateRoundTrip(rate: nat, rest: string, mask: bool)
    requires (rate == 0 || ValidRate(rate)) && StartsWith(rest, ':')
    ensures ParseSampleRate(RateText(rate) + rest, mask) ==
            if rate == 0 && !mask then Err(NoRate) else Ok((rate, rest))
  {
    var s := RateText(rate) + rest;
    if rate > 0 {
      StrtoulOfDecimal(rate, rest);
      FitsIn32Bits(rate);
      assert IsDigit(s[0]);
    } else {
      assert s[1..] == rest;
      StrtoulRefuses(s);
    }
  }

  lemma LongRoundTrip(f: AudioFormat, mask: bool)
    requires IsMaskValid(f) && !IsShort(f)
    ensures Parse(ToString(f), mask) == Ok(f) <==> mask || IsValid(f)
  {
    var channels := ":" + ChannelText(f.channels);
    var format := ":" + (FormatText(f.format) + channels);
    var src := RateText(f.sampleRate) + format;
    assert src == ToString(f) && src[0] != 'd' && !("dsd" <= src);
    RateRoundTrip(f.sampleRate, format, mask);
    assert format[1..] == FormatText(f.format) + channels;
    FormatRoundTrip(f.format, channels, mask);
    assert channels[1..] == ChannelText(f.channels);
    ChannelsRoundTrip(f.sampleRate, f.format, f.channels, mask);
  }

  /** The product with 8 wraps around from 12174 times 44100 on. */
  lemma DsdNumberOf(rate: nat)
    requires ValidRate(rate) && rate % 44100 == 0
    ensures var k := rate / 44100; DsdNumber(rate) == if k <= 12173 then 8 * k else 8 * (k - 12174)
  {
    var k := rate / 44100;
    assert rate == 44100 * k;
    if k > 12173 {
      assert rate * 8 == UINT32 + 44100 * (8 * (k - 12174)) + 19904;
    }
  }

  /** The number stands for the same rate again exactly if it is in the range of the parser. */
  lemma DsdNumberReturns(rate: nat)
    requires ValidRate(rate) && rate % 44100 == 0
    ensures var v := DsdNumber(rate);
            && v % 2 == 0
            && (32 <= v <= 4096 && v * 44100 / 8 == rate <==> 4 <= rate / 44100 <= 512)
  {
    var k := rate / 44100;
    DsdNumberOf(rate);
    var j := if k <= 12173 then k else k - 12174;
    assert 8 * j * 44100 / 8 == 44100 * j && rate == 44100 * k;
  }

  /** How the short form is split by the parser. */
  lemma ShortText(f: AudioFormat)
    requires IsMaskValid(f) && IsShort(f)
    ensures var src := ToString(f);
            && "dsd" <= src && Strtoul(src).None?
            && Strtoul(src[3..]) == Some((DsdNumber(f.sampleRate), ":" + ChannelText(f.channels)))
  {
    var src, v, channels := ToString(f), DsdNumber(f.sampleRate), ":" + ChannelText(f.channels);
    assert src == "dsd" + (Decimal(v) + channels);
    assert src[3..] == Decimal(v) + channels && src[..3] == "dsd";
    StrtoulOfDecimal(v, channels);
    StrtoulRefuses(src);
  }

  lemma ParseShort(src: string, v: nat, channels: string, mask: bool)
    requires "dsd" <= src && Strtoul(src).None? && Strtoul(src[3..]) == Some((v, ":" + channels)) && v % 2 == 0
    ensures Parse(src, mask) == if 32 <= v <= 4096 then ParseLast(v * 44100 / 8, DSD, channels, mask) else Err(NoRate)
  {
    assert (":" + channels)[1..] == channels;
  }

  lemma ShortRoundTrip(f: AudioFormat, mask: bool)
    requires IsMaskValid(f) && IsShort(f)
    ensures Parse(ToString(f), mask) == Ok(f) <==> (mask || IsValid(f)) && 4 <= f.sampleRate / 44100 <= 512
  {
    var v := DsdNumber(f.sampleRate);
    DsdNumberReturns(f.sampleRate);
    ShortText(f);
    ParseShort(ToString(f), v, ChannelText(f.channels), mask);
    ChannelsRoundTrip(v * 44100 / 8, DSD, f.channels, mask);
  }

  /** Printing and parsing: exactly the formats that come back. */
  lemma RoundTrip(f: AudioFormat, mask: bool)
    requires IsMaskValid(f)
    ensures Parse(ToString(f), mask) == Ok(f) <==>
            ValidFor(f, mask) && (IsShort(f) ==> 4 <= f.sampleRate / 44100 <= 512)
  {
    if IsShort(f) {
      ShortRoundTrip(f, mask);
    } else {
      LongRoundTrip(f, mask);
    }
  }

  /** The names of the sample formats, as users write them. */
  lemma NamesOfFormats(rest: string, mask: bool)
    requires StartsWith(rest, ':')
    ensures ParseSampleFormat("8" + rest, mask) == Ok((S8, rest))
    ensures ParseSampleFormat("16" + rest, mask) == Ok((S16, rest))
    ensures ParseSampleFormat("24" + rest, mask) == Ok((S24_P32, rest))
    ensures ParseSampleFormat("32" + rest, mask) == Ok((S32, rest))
    ensures ParseSampleFormat("f" + rest, mask) == Ok((FLOAT, rest))
    ensures ParseSampleFormat("dsd" + rest, mask) == Ok((DSD, rest))
  {
    FormatRoundTrip(S8, rest, mask);
    FormatRoundTrip(S16, rest, mask);
    FormatRoundTrip(S24_P32, rest, mask);
    FormatRoundTrip(S32, rest, mask);
    FormatRoundTrip(FLOAT, rest, mask);
    FormatRoundTrip(DSD, rest, mask);
  }

  lemma FitsIn32Bits(n: nat)
    requires n < UINT32
    ensures n % UINT32 == n
  {
  }

  /** The limits of a sample rate. */
  lemma LimitsOfRate(n: nat, rest: string, mask: bool)
    requires n < UINT32 && StartsWith(rest, ':')
    ensures ParseSampleRate(Decimal(n) + rest, mask) ==
            if 0 < n < 1_073_741_824 then Ok((n, rest)) else Err(InvalidRate)
  {
    StrtoulOfDecimal(n, rest);
    FitsIn32Bits(n);
    assert IsDigit((Decimal(n) + rest)[0]);
  }

  /** The limits of a channel count. */
  lemma LimitsOfChannels(n: nat, mask: bool)
    requires n < UINT32
    ensures ParseChannelCount(Decimal(n), mask) == if 0 < n <= 8 then Ok((n, [])) else Err(InvalidChannels)
  {
    StrtoulOfDecimal(n, []);
    FitsIn32Bits(n);
    assert Decimal(n) + [] == Decimal(n) && IsDigit(Decimal(n)[0]);
  }

  lemma ExtraIsRefused(rate: nat, format: SampleFormat, channels: nat, rest: string, mask: bool)
    requires ValidChannels(channels) && rest != [] && !IsDigit(rest[0])
    ensures ParseLast(rate, format, ChannelText(channels) + rest, mask) == Err(ExtraData)
  {
    StrtoulOfDecimal(channels, rest);
  }

  /** Nothing may follow the channel count. */
  lemma TrailingTextIsRefused(f: AudioFormat, rest: string, mask: bool)
    requires IsValid(f) && !IsShort(f) && rest != [] && !IsDigit(rest[0])
    ensures Parse(ToString(f) + rest, mask) == Err(ExtraData)
  {
    var channels := ":" + (ChannelText(f.channels) + rest);
    var format := ":" + (FormatText(f.format) + channels);
    var src := RateText(f.sampleRate) + format;
    assert src == ToString(f) + rest && src[0] != 'd' && !("dsd" <= src);
    RateRoundTrip(f.sampleRate, format, mask);
    assert format[1..] == FormatText(f.format) + channels;
    FormatRoundTrip(f.format, channels, mask);
    assert channels[1..] == ChannelText(f.channels) + rest;
    ExtraIsRefused(f.sampleRate, f.format, f.channels, rest, mask);
  }

  /** One that does not: 3 times 44100 Hz. */
  lemma SlowDsdIsLost()
    ensures var f := AudioFormat(132300, DSD, 2); IsValid(f) && Parse(ToString(f), false) == Err(NoRate)
  {
    var f := AudioFormat(132300, DSD, 2);
    DsdNumberOf(f.sampleRate);
    ShortText(f);
  }

  /** And one that comes back as another: the printer multiplies in 32 bits. */
  lemma FastDsdIsMistaken()
    ensures var f, g := AudioFormat(12178 * 44100, DSD, 2), AudioFormat(4 * 44100, DSD, 2);
            IsValid(f) && Parse(ToString(f), false) == Ok(g)
  {
    var f := AudioFormat(12178 * 44100, DSD, 2);
    DsdNumberOf(f.sampleRate);
    var g := AudioFormat(4 * 44100, DSD, 2);
    DsdNumberOf(g.sampleRate);
    assert ToString(f) == ToString(g);
    RoundTrip(g, false);
  }

  // --- other texts that are understood ---------------------------------------------------

  /** Every even number from 32 to 4096 after "dsd" stands for its multiple of 44100/8 Hz. */
  lemma DsdShortcutParses(n: nat, channels: nat, mask: bool)
    requires 32 <= n <= 4096 && n % 2 == 0 && ValidChannels(channels)
    ensures Parse("dsd" + (Decimal(n) + (":" + Decimal(channels))), mask) ==
            Ok(AudioFormat(n * 44100 / 8, DSD, channels))
  {
    var src := "dsd" + (Decimal(n) + (":" + Decimal(channels)));
    assert src[3..] == Decimal(n) + (":" + Decimal(channels)) && src[..3] == "dsd";
    StrtoulOfDecimal(n, ":" + Decimal(channels));
    StrtoulRefuses(src);
    ParseShort(src, n, Decimal(channels), mask);
    ChannelsRoundTrip(n * 44100 / 8, DSD, channels, mask);
  }

  lemma OldNameRoundTrip(rest: string, mask: bool)
    requires StartsWith(rest, ':')
    ensures ParseSampleFormat("24_3" + rest, mask) == Ok((S24_P32, rest))
  {
    var src, tail := "24_3" + rest, "_3" + rest;
    assert src == Decimal(24) + tail;
    StrtoulOfDecimal(24, tail);
    assert tail[..2] == "_3" && tail[2..] == rest;
  }

  /** The old name of the 24 bit format is still understood. */
  lemma OldNameParses(rate: nat, channels: nat, mask: bool)
    requires ValidRate(rate) && ValidChannels(channels)
    ensures Parse(Decimal(rate) + (":" + ("24_3" + (":" + Decimal(channels)))), mask) ==
            Ok(AudioFormat(rate, S24_P32, channels))
  {
    var last := ":" + Decimal(channels);
    var format := ":" + ("24_3" + last);
    var src := Decimal(rate) + format;
    assert src[0] == Decimal(rate)[0] && src[0] != 'd' && !("dsd" <= src);
    RateRoundTrip(rate, format, mask);
    assert format[1..] == "24_3" + last;
    OldNameRoundTrip(last, mask);
    assert last[1..] == Decimal(channels);
    ChannelsRoundTrip(rate, S24_P32, channels, mask);
  }
}
