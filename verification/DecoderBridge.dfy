/**
 Packing decoded data into chunks: DecoderBridge::SubmitData and SubmitTag
 (src/decoder/Bridge.cxx), MusicChunk::Write and Expand (src/MusicChunk.cxx).

 The chunk allocator and the player are a parameter: a list of what becomes of the next
 attempts to allocate a chunk.  Past its end, chunks are available.
 */
module DecoderBridge {
  import opened Prelude
  import P = DecoderProtocol

  type Byte = bv8
  type Tag = string

  /** A chunk is allocated, or the buffer is full and, after waiting, there is a command. */
  datatype Attempt = Granted | Refused(command: P.Command)

  /** No command arrives while the decoder waits for a chunk. */
  predicate Quietly(env: seq<Attempt>) {
    forall k :: 0 <= k < |env| && env[k].Refused? ==> env[k].command == P.NoCommand
  }

  datatype Chunk = Chunk(data: seq<Byte>, tag: Option<Tag>)

  const EMPTY_CHUNK := Chunk([], None)

  predicate IsEmpty(c: Chunk) { c.data == [] && c.tag.None? }

  /** Whole frames, no more than there is room for. */
  predicate FramesOk(c: Chunk, frame: nat, capacity: nat) {
    frame > 0 && |c.data| % frame == 0 && |c.data| <= capacity
  }

  /** MusicChunk::Write: the size of the buffer that may be written to. */
  function Room(c: Chunk, frame: nat, capacity: nat): nat
    requires FramesOk(c, frame, capacity)
  {
    (capacity - |c.data|) / frame * frame
  }

  /** MusicChunk::Expand: the chunk is full when no other frame fits. */
  predicate IsFull(c: Chunk, frame: nat, capacity: nat) { |c.data| + frame > capacity }

  lemma RoomIsFrames(c: Chunk, frame: nat, capacity: nat)
    requires FramesOk(c, frame, capacity)
    ensures Room(c, frame, capacity) % frame == 0 && |c.data| + Room(c, frame, capacity) <= capacity
    ensures Room(c, frame, capacity) == 0 <==> IsFull(c, frame, capacity)
  {
    var free := capacity - |c.data|;
    var q := free / frame;
    assert free == q * frame + free % frame;
    ModOfMultiple(q, frame);
    if q >= 1 {
      assert q * frame >= frame;
    }
  }

  lemma AddFrames(a: nat, b: nat, frame: nat)
    requires frame > 0 && a % frame == 0 && b % frame == 0
    ensures (a + b) % frame == 0 && (a >= b ==> (a - b) % frame == 0)
  {
    var x, y := a / frame, b / frame;
    assert a == x * frame && b == y * frame;
    assert a + b == (x + y) * frame && a - b == (x - y) * frame;
    ModOfMultiple(x + y, frame);
    if a >= b {
      ModOfMultiple(x - y, frame);
    }
  }

  lemma ModOfMultiple(x: int, frame: nat)
    requires frame > 0
    ensures (x * frame) % frame == 0
  {
    var q, r := (x * frame) / frame, (x * frame) % frame;
    assert (x - q) * frame == r;
    MultipleOutside(x - q, frame);
  }

  lemma MultipleOutside(k: int, frame: nat)
    ensures k >= 1 ==> k * frame >= frame
    ensures k <= -1 ==> k * frame <= -(frame as int)
  {
  }

  /** The data of chunks, in order. */
  function Joined(chunks: seq<Chunk>): seq<Byte> {
    if chunks == [] then [] else Joined(chunks[..|chunks| - 1]) + chunks[|chunks| - 1].data
  }

  lemma JoinSlices(before: seq<Byte>, data: seq<Byte>, i: nat, n: nat)
    requires i + n <= |data|
    ensures before + data[..i] + data[i..][..n] == before + data[..i + n]
  {
    assert data[..i] + data[i..][..n] == data[..i + n];
  }

  function CurrentData(current: Option<Chunk>): seq<Byte> {
    if current.Some? then current.value.data else []
  }

  /** What PcmConvert::Convert returns, given everything it was fed since its last Reset(), the
      new data last; None if it throws. */
  type Converter = seq<seq<Byte>> -> Option<seq<Byte>>

  predicate AllFrames(fed: seq<seq<Byte>>, inFrame: nat)
    requires inFrame > 0
  {
    forall k :: 0 <= k < |fed| ==> |fed[k]| % inFrame == 0
  }

  /** Fed with whole frames, a converter yields whole frames. */
  ghost predicate WholeFrames(convert: Converter, inFrame: nat, outFrame: nat)
    requires inFrame > 0 && outFrame > 0
  {
    forall fed :: AllFrames(fed, inFrame) && convert(fed).Some? ==> |convert(fed).value| % outFrame == 0
  }

  /** SongTime::ToScale: a time in milliseconds, counted in frames. */
  function ToScale(time: nat, rate: nat): nat { time * rate / 1000 }

  /** The last frame that does not start after the time; whole seconds are exact. */
  lemma ToScaleIsFloor(time: nat, rate: nat)
    ensures ToScale(time, rate) * 1000 <= time * rate < (ToScale(time, rate) + 1) * 1000
    ensures ToScale(1000 * time, rate) == time * rate
  {
    assert 1000 * time * rate == 1000 * (time * rate);
  }

  /** What a decoder is started with: frame sizes, sample rate, end time in milliseconds (zero
      if there is none), converter. */
  datatype Formats = Formats(inFrame: nat, outFrame: nat, rate: nat, endTime: nat, convert: Converter)

  ghost predicate FormatsOk(f: Formats) {
    f.inFrame > 0 && f.outFrame > 0 && WholeFrames(f.convert, f.inFrame, f.outFrame)
  }

  function EndFrame(f: Formats): Option<nat> {
    if f.endTime > 0 then Some(ToScale(f.endTime, f.rate)) else None
  }

  class Bridge {
    /** The frame sizes of in_audio_format and out_audio_format, and the size of MusicChunk::data. */
    const inFrame: nat
    const outFrame: nat
    const capacity: nat
    /** The sample rate of in_audio_format, and end_time in frames, if there is an end time. */
    const rate: nat
    const endFrame: Option<nat>
    /** The converter, or the one that returns what it was last fed. */
    const convert: Converter
    /** Tag::Merge. */
    const merge: (Tag, Tag) -> Tag

    /** All chunks that were pushed into the pipe since the last seek. */
    var pushed: seq<Chunk>
    var current: Option<Chunk>
    var absoluteFrame: nat
    var error: bool
    /** What the converter was fed since its last Reset(). */
    var fed: seq<seq<Byte>>
    var songTag: Option<Tag>
    var streamTag: Option<Tag>
    var decoderTag: Option<Tag>

    ghost predicate Valid()
      reads this
    {
      && inFrame > 0 && 0 < outFrame <= capacity && WholeFrames(convert, inFrame, outFrame) && AllFrames(fed, inFrame)
      && (forall k :: 0 <= k < |pushed| ==> FramesOk(pushed[k], outFrame, capacity) && !IsEmpty(pushed[k]))
      && (current.Some? ==> FramesOk(current.value, outFrame, capacity))
    }

    /** Everything that was decoded: the pipe, then the current chunk. */
    ghost function Content(): seq<Byte>
      reads this
    {
      Joined(pushed) + CurrentData(current)
    }

    constructor (f: Formats, capacity: nat, merge: (Tag, Tag) -> Tag, songTag: Option<Tag>)
      requires FormatsOk(f) && f.outFrame <= capacity
      ensures Valid() && Content() == [] && absoluteFrame == 0 && fed == []
      ensures inFrame == f.inFrame && rate == f.rate && endFrame == EndFrame(f) && convert == f.convert
    {
      inFrame, outFrame, rate, endFrame, convert := f.inFrame, f.outFrame, f.rate, EndFrame(f), f.convert;
      this.capacity, this.merge := capacity, merge;
      pushed, current, absoluteFrame, error, fed := [], None, 0, false, [];
      this.songTag, streamTag, decoderTag := songTag, None, None;
    }

    /** GetChunk: None if a command arrived while all chunks were in use. */
    method GetChunk(env: seq<Attempt>) returns (command: P.Command, rest: seq<Attempt>)
      requires Valid()
      modifies this`current
      ensures Valid() && Content() == old(Content()) && |rest| <= |env|
      ensures command == P.NoCommand <==> current.Some?
      ensures Quietly(env) ==> command == P.NoCommand && Quietly(rest)
      ensures old(current).Some? || current.None? ==> current == old(current)
      ensures old(current).None? && current.Some? ==> current.value == EMPTY_CHUNK
    {
      rest := env;
      if current.Some? {
        return P.NoCommand, rest;
      }
      while rest != [] && rest[0].Refused?
        invariant |rest| <= |env| && (Quietly(env) ==> Quietly(rest))
        decreases |rest|
      {
        command := rest[0].command;
        rest := rest[1..];
        if command != P.NoCommand {
          return command, rest;
        }
      }
      current := Some(EMPTY_CHUNK);
      command, rest := P.NoCommand, if rest == [] then [] else rest[1..];
    }

    /** FlushChunk: an empty chunk is returned to the buffer, any other goes to the pipe. */
    method FlushChunk()
      requires Valid() && current.Some?
      modifies this`pushed, this`current
      ensures Valid() && current.None? && Content() == old(Content())
      ensures pushed == if IsEmpty(old(current).value) then old(pushed) else old(pushed) + [old(current).value]
    {
      if !IsEmpty(current.value) {
        var all := pushed + [current.value];
        assert all[..|all| - 1] == pushed;
        pushed := all;
      }
      current := None;
    }

    /** One round of the copy loop: how much of the data went into the current chunk. */
    method CopySome(data: seq<Byte>) returns (n: nat)
      requires Valid() && current.Some? && data != [] && |data| % outFrame == 0
      modifies this`pushed, this`current
      ensures Valid() && n <= |data| && n % outFrame == 0 && Content() == old(Content()) + data[..n]
      ensures n > 0 || (current.None? && IsFull(old(current).value, outFrame, capacity))
    {
      var chunk := current.value;
      RoomIsFrames(chunk, outFrame, capacity);
      var size := Room(chunk, outFrame, capacity);
      if size == 0 {
        FlushChunk();
        assert data[..0] == [];
        return 0;
      }
      n := if size < |data| then size else |data|;
      AddFrames(|chunk.data|, n, outFrame);
      current := Some(chunk.(data := chunk.data + data[..n]));
      assert Content() == old(Content()) + data[..n];
      if IsFull(current.value, outFrame, capacity) {
        FlushChunk();
      }
    }

    /** The copy loop: all of the data, unless a command interrupts it. */
    method Copy(data: seq<Byte>, env: seq<Attempt>) returns (command: P.Command, rest: seq<Attempt>, ghost written: nat)
      requires Valid() && |data| % outFrame == 0
      modifies this`pushed, this`current
      ensures Valid() && written <= |data| && written % outFrame == 0 && Content() == old(Content()) + data[..written]
      ensures command == P.NoCommand ==> written == |data|
      ensures Quietly(env) ==> command == P.NoCommand
    {
      var length := 0;
      rest := env;
      while length < |data|
        invariant Valid() && length <= |data| && length % outFrame == 0
        invariant Content() == old(Content()) + data[..length] && (Quietly(env) ==> Quietly(rest))
        decreases |data| - length, if current.Some? then 1 else 0
      {
        command, rest := GetChunk(rest);
        if command != P.NoCommand {
          written := length;
          return;
        }
        AddFrames(|data|, length, outFrame);
        var n := CopySome(data[length..]);
        AddFrames(length, n, outFrame);
        JoinSlices(old(Content()), data, length, n);
        length := length + n;
      }
      assert data[..length] == data;
      command, written := P.NoCommand, length;
    }

    /** DoSendTag: the tag goes into a new chunk. */
    method DoSendTag(tag: Tag, env: seq<Attempt>) returns (command: P.Command, rest: seq<Attempt>)
      requires Valid()
      modifies this`pushed, this`current
      ensures Valid() && Content() == old(Content())
      ensures command == P.NoCommand <==> current.Some?
      ensures Quietly(env) ==> command == P.NoCommand && Quietly(rest)
      ensures current.Some? ==> current.value == Chunk([], Some(tag))
      ensures old(current).Some? && !IsEmpty(old(current).value) ==> pushed == old(pushed) + [old(current).value]
    {
      if current.Some? {
        FlushChunk();
      }
      command, rest := GetChunk(env);
      if command == P.NoCommand {
        current := Some(current.value.(tag := Some(tag)));
      }
    }

    /** UpdateStreamTag: a tag of the stream replaces that of the song, which is used once. */
    method UpdateStreamTag(fromStream: Option<Tag>) returns (updated: bool)
      modifies this`songTag, this`streamTag
      ensures updated <==> fromStream.Some? || old(songTag).Some?
      ensures updated ==> songTag.None? && streamTag == if fromStream.Some? then fromStream else old(songTag)
      ensures !updated ==> songTag == old(songTag) && streamTag == old(streamTag)
    {
      if fromStream.None? && songTag.None? {
        return false;
      }
      streamTag := if fromStream.Some? then fromStream else songTag;
      songTag := None;
      updated := true;
    }

    /** SubmitData, the part that sends a new stream tag. */
    method SendStreamTag(fromStream: Option<Tag>, env: seq<Attempt>) returns (command: P.Command, rest: seq<Attempt>)
      requires Valid()
      modifies this`pushed, this`current, this`songTag, this`streamTag
      ensures Valid() && Content() == old(Content())
      ensures (fromStream.Some? || old(songTag).Some?) && command == P.NoCommand ==>
                current.Some? && current.value.data == [] && current.value.tag.Some? && streamTag.Some? &&
                current.value.tag.value == (if decoderTag.Some? then merge(decoderTag.value, streamTag.value)
                                            else streamTag.value)
      ensures Quietly(env) ==> command == P.NoCommand && Quietly(rest)
    {
      var updated := UpdateStreamTag(fromStream);
      if !updated {
        return P.NoCommand, env;
      }
      command, rest := DoSendTag(if decoderTag.Some? then merge(decoderTag.value, streamTag.value)
                                 else streamTag.value, env);
    }

    /** SubmitData, the part that cuts off, converts and copies the data. */
    method ConvertAndCopy(data: seq<Byte>, env: seq<Attempt>)
      returns (command: P.Command, rest: seq<Attempt>, ghost outcome: Outcome)
      requires Valid() && |data| % inFrame == 0 && (endFrame.Some? ==> absoluteFrame < endFrame.value)
      modifies this`pushed, this`current, this`absoluteFrame, this`error, this`fed
      ensures fed == old(fed) + [Taken(data, inFrame, old(absoluteFrame), endFrame)]
      ensures Valid() && (outcome == Unconverted || outcome.Interrupted? || outcome == Finished)
      ensures var out := convert(old(fed) + [Taken(data, inFrame, old(absoluteFrame), endFrame)]);
              var frames := FramesTaken(data, inFrame, old(absoluteFrame), endFrame);
              Described(outcome, out, old(Content()), Content(), frames, old(absoluteFrame), absoluteFrame)
      ensures outcome == Finished ==>
                command == if ReachesEnd(data, inFrame, old(absoluteFrame), endFrame) then P.StopCommand
                  else P.NoCommand
      ensures outcome == Unconverted ==> command == P.StopCommand && error
      ensures outcome.Interrupted? ==> command != P.NoCommand && !Quietly(env)
    {
      var stop := ReachesEnd(data, inFrame, absoluteFrame, endFrame);
      var frames := FramesTaken(data, inFrame, absoluteFrame, endFrame);
      fed := fed + [Taken(data, inFrame, absoluteFrame, endFrame)];
      var out := convert(fed);
      if out.None? {
        error := true;
        return P.StopCommand, env, Unconverted;
      }
      ghost var written;
      command, rest, written := Copy(out.value, env);
      if command != P.NoCommand {
        outcome := Interrupted(written);
        return;
      }
      assert out.value[..written] == out.value;
      absoluteFrame := absoluteFrame + frames;
      command, outcome := if stop then P.StopCommand else P.NoCommand, Finished;
    }

    /** SubmitData.  `first` is what GetVirtualCommand() returns. */
    method SubmitData(fromStream: Option<Tag>, data: seq<Byte>, first: P.Command, env: seq<Attempt>)
      returns (command: P.Command, rest: seq<Attempt>, ghost outcome: Outcome)
      requires Valid() && |data| % inFrame == 0
      modifies this`pushed, this`current, this`songTag, this`streamTag, this`absoluteFrame, this`error, this`fed
      ensures Valid()
      ensures fed == if outcome == Unconverted || outcome.Interrupted? || outcome == Finished
                     then old(fed) + [Taken(data, inFrame, old(absoluteFrame), endFrame)] else old(fed)
      ensures outcome == Skipped <==> first == P.StopCommand || first == P.SeekCommand || data == []
      ensures outcome == Skipped ==> command == first && pushed == old(pushed) && current == old(current)
      ensures var out := convert(old(fed) + [Taken(data, inFrame, old(absoluteFrame), endFrame)]);
              var frames := FramesTaken(data, inFrame, old(absoluteFrame), endFrame);
              Described(outcome, out, old(Content()), Content(), frames, old(absoluteFrame), absoluteFrame)
      ensures outcome == Finished ==>
                command == if ReachesEnd(data, inFrame, old(absoluteFrame), endFrame) then P.StopCommand
                  else P.NoCommand
      ensures outcome == Finished && endFrame.None? ==> fed == old(fed) + [data] && command == P.NoCommand
      ensures outcome == Finished && endFrame.Some? ==>
                var before := (endFrame.value - old(absoluteFrame)) * inFrame;
                && before >= 0 && fed == old(fed) + [data[..Least(|data|, before)]]
                && command == (if before <= |data| then P.StopCommand else P.NoCommand)
      ensures outcome == Beyond <==>
              !outcome.Skipped? && !outcome.NoTag? && endFrame.Some? && old(absoluteFrame) >= endFrame.value
      ensures outcome == Beyond || outcome == Unconverted ==> command == P.StopCommand
      ensures outcome == NoTag || outcome.Interrupted? ==> command != P.NoCommand && !Quietly(env)
      ensures outcome == Unconverted ==> error
      ensures endFrame.Some? && old(absoluteFrame) <= endFrame.value ==> absoluteFrame <= endFrame.value
    {
      if first == P.StopCommand || first == P.SeekCommand || data == [] {
        return first, env, Skipped;
      }
      command, rest := SendStreamTag(fromStream, env);
      if command != P.NoCommand {
        outcome := NoTag;
        return;
      }
      if endFrame.Some? && absoluteFrame >= endFrame.value {
        return P.StopCommand, rest, Beyond;
      }
      ghost var a := absoluteFrame;
      command, rest, outcome := ConvertAndCopy(data, rest);
      if endFrame.None? {
        WholeIsTaken(data, inFrame, a);
      } else {
        PrefixIsTaken(data, inFrame, a, endFrame.value);
      }
    }

    /** CommandFinished: after a seek, everything starts over at the frame of the new position;
        after the initial seek, there is nothing yet. */
    method CommandFinished(initialRunning: bool, seeking: bool, time: nat)
      requires Valid() && (initialRunning ==> pushed == [] && current.None?)
      modifies this`pushed, this`current, this`absoluteFrame, this`fed
      ensures Valid()
      ensures initialRunning || seeking ==> Content() == [] && absoluteFrame == ToScale(time, rate)
      ensures fed == if seeking && !initialRunning then [] else old(fed)
      ensures !initialRunning && !seeking ==> Content() == old(Content()) && absoluteFrame == old(absoluteFrame)
    {
      if initialRunning {
        absoluteFrame := ToScale(time, rate);
        return;
      }
      if seeking {
        pushed, current, fed, absoluteFrame := [], None, [], ToScale(time, rate);
      }
    }

    /** SubmitTag.  `initialSeek` is what PrepareInitialSeek() returns: then the tag is only
        remembered. */
    method SubmitTag(fromStream: Option<Tag>, tag: Tag, initialSeek: bool, env: seq<Attempt>)
      returns (command: P.Command, rest: seq<Attempt>)
      requires Valid()
      modifies this`pushed, this`current, this`songTag, this`streamTag, this`decoderTag
      ensures Valid() && Content() == old(Content()) && decoderTag == Some(tag)
      ensures initialSeek ==> command == P.SeekCommand && pushed == old(pushed) && current == old(current)
      ensures !initialSeek && command == P.NoCommand ==>
                current == Some(Chunk([], Some(if streamTag.Some? then merge(streamTag.value, tag) else tag)))
    {
      decoderTag := Some(tag);
      if initialSeek {
        return P.SeekCommand, env;
      }
      var _ := UpdateStreamTag(fromStream);
      command, rest := DoSendTag(if streamTag.Some? then merge(streamTag.value, tag) else tag, env);
    }
  }

  /** What became of submitted data. */
  datatype Outcome =
    | Skipped                    // a command is pending, or there is no data
    | NoTag                      // a command arrived before the tag was sent
    | Beyond                     // the end was reached before
    | Unconverted                // the conversion failed
    | Interrupted(written: nat)  // a command arrived after so many bytes
    | Finished

  /** Does the data go up to the end time, or past it? */
  predicate ReachesEnd(data: seq<Byte>, inFrame: nat, absoluteFrame: nat, endFrame: Option<nat>)
    requires inFrame > 0
  {
    endFrame.Some? && absoluteFrame + |data| / inFrame >= endFrame.value
  }

  /** How many frames of the data are before the end time. */
  function FramesTaken(data: seq<Byte>, inFrame: nat, absoluteFrame: nat, endFrame: Option<nat>): (n: nat)
    requires inFrame > 0
    ensures n * inFrame <= |data|
  {
    DivideTimes(|data|, inFrame);
    if !ReachesEnd(data, inFrame, absoluteFrame, endFrame) then |data| / inFrame
    else if absoluteFrame >= endFrame.value then 0
    else
      TimesMonotone(endFrame.value - absoluteFrame, |data| / inFrame, inFrame);
      endFrame.value - absoluteFrame
  }

  lemma DivideTimes(a: nat, b: nat)
    requires b > 0
    ensures 0 <= a / b * b <= a
  {
  }

  lemma TimesMonotone(a: int, b: int, c: nat)
    requires a <= b
    ensures a * c <= b * c
  {
  }

  function Taken(data: seq<Byte>, inFrame: nat, absoluteFrame: nat, endFrame: Option<nat>): (r: seq<Byte>)
    requires inFrame > 0
    ensures |r| % inFrame == 0
  {
    var n := FramesTaken(data, inFrame, absoluteFrame, endFrame);
    ModOfMultiple(n, inFrame);
    data[..n * inFrame]
  }

  function Least(a: nat, b: nat): nat { if a < b then a else b }

  /** Data of whole frames without an end time is taken as it is. */
  lemma WholeIsTaken(data: seq<Byte>, inFrame: nat, a: nat)
    requires inFrame > 0 && |data| % inFrame == 0
    ensures Taken(data, inFrame, a, None) == data
    ensures FramesTaken(data, inFrame, a, None) * inFrame == |data|
    ensures !ReachesEnd(data, inFrame, a, None)
  {
    DivisionExact(|data|, inFrame);
  }

  /** With an end time ahead, exactly the bytes before it are taken. */
  lemma PrefixIsTaken(data: seq<Byte>, inFrame: nat, a: nat, e: nat)
    requires inFrame > 0 && |data| % inFrame == 0 && a < e
    ensures 0 <= (e - a) * inFrame
    ensures Taken(data, inFrame, a, Some(e)) == data[..Least(|data|, (e - a) * inFrame)]
    ensures FramesTaken(data, inFrame, a, Some(e)) * inFrame == Least(|data|, (e - a) * inFrame)
    ensures ReachesEnd(data, inFrame, a, Some(e)) <==> (e - a) * inFrame <= |data|
  {
    DivisionExact(|data|, inFrame);
    TimesMonotone(0, e - a, inFrame);
    if e - a <= |data| / inFrame {
      TimesMonotone(e - a, |data| / inFrame, inFrame);
    } else {
      TimesMonotone(|data| / inFrame + 1, e - a, inFrame);
    }
  }

  lemma DivisionExact(n: nat, d: nat)
    requires d > 0 && n % d == 0
    ensures n / d * d == n && (n / d + 1) * d == n + d
  {
  }

  /** How the content and the frame counter changed, if the data was converted to `out`. */
  ghost predicate Described(outcome: Outcome, out: Option<seq<Byte>>, before: seq<Byte>, after: seq<Byte>,
                            frames: nat, frame: nat, frame': nat)
  {
    match outcome
    case Finished => out.Some? && after == before + out.value && frame' == frame + frames
    case Interrupted(n) => out.Some? && n <= |out.value| && after == before + out.value[..n] && frame' == frame
    case Unconverted => out.None? && after == before && frame' == frame
    case _ => after == before && frame' == frame
  }

  // --- histories ---------------------------------------------------------------------------

  /** What a plugin does, in order; `first` and `env` are what the player and the chunk buffer do
      meanwhile. */
  datatype Op =
    | OpData(fromStream: Option<Tag>, data: seq<Byte>, first: P.Command, env: seq<Attempt>)
    | OpTag(fromStream: Option<Tag>, tag: Tag, initialSeek: bool, env: seq<Attempt>)
    | OpSeek(time: nat)

  /** What has been decoded since the last seek, and what the converter was fed for it. */
  datatype Decoded = Decoded(fed: seq<seq<Byte>>, content: seq<Byte>, frame: nat)

  /** One operation, without chunks: data is cut off at the end time, converted and appended. */
  function Decode(f: Formats, d: Decoded, op: Op): Decoded
    requires f.inFrame > 0
  {
    match op
    case OpSeek(time) => Decoded([], [], ToScale(time, f.rate))
    case OpTag(_, _, _, _) => d
    case OpData(_, data, first, _) =>
      var end := EndFrame(f);
      if first == P.StopCommand || first == P.SeekCommand || data == [] || (end.Some? && d.frame >= end.value) then d
      else
        var fed := d.fed + [Taken(data, f.inFrame, d.frame, end)];
        var out := f.convert(fed);
        if out.None? then d.(fed := fed)
        else Decoded(fed, d.content + out.value, d.frame + FramesTaken(data, f.inFrame, d.frame, end))
  }

  function DecodeAll(f: Formats, ops: seq<Op>): Decoded
    requires f.inFrame > 0
  {
    if ops == [] then Decoded([], [], 0) else Decode(f, DecodeAll(f, ops[..|ops| - 1]), ops[|ops| - 1])
  }

  // --- without conversion --------------------------------------------------------------------

  /** A converter that returns what it was last fed. */
  ghost predicate PassesThrough(convert: Converter) {
    forall fed :: fed != [] ==> convert(fed) == Some(fed[|fed| - 1])
  }

  /** The data that was submitted after the last seek, unless a command was pending. */
  function Submitted(ops: seq<Op>): seq<Byte> {
    if ops == [] then [] else
    var before, op := Submitted(ops[..|ops| - 1]), ops[|ops| - 1];
    match op
    case OpSeek(_) => []
    case OpTag(_, _, _, _) => before
    case OpData(_, data, first, _) =>
      if first == P.StopCommand || first == P.SeekCommand then before else before + data
  }

  /** The time of the last seek, or zero. */
  function SeekTime(ops: seq<Op>): nat {
    if ops == [] then 0 else
    match ops[|ops| - 1]
    case OpSeek(time) => time
    case _ => SeekTime(ops[..|ops| - 1])
  }

  lemma TimesSum(a: nat, b: nat, c: nat)
    ensures (a + b) * c == a * c + b * c
  {
  }

  lemma DataIsAppended(f: Formats, d: Decoded, op: Op)
    requires f.inFrame > 0 && f.endTime == 0 && PassesThrough(f.convert)
    requires op.OpData? && |op.data| % f.inFrame == 0
    requires op.first != P.StopCommand && op.first != P.SeekCommand
    ensures Decode(f, d, op).content == d.content + op.data
    ensures Decode(f, d, op).frame * f.inFrame == d.frame * f.inFrame + |op.data|
  {
    if op.data != [] {
      WholeIsTaken(op.data, f.inFrame, d.frame);
      var fed := d.fed + [op.data];
      assert f.convert(fed) == Some(op.data);
      TimesSum(d.frame, FramesTaken(op.data, f.inFrame, d.frame, None), f.inFrame);
    }
  }

  /** Without an end time and without conversion, the chunks hold the data submitted since the
      last seek, byte for byte, and the frame counter counts its frames from the seek position. */
  lemma {:induction false} NothingIsLost(f: Formats, ops: seq<Op>)
    requires f.inFrame > 0 && f.endTime == 0 && PassesThrough(f.convert)
    requires forall k :: 0 <= k < |ops| && ops[k].OpData? ==> |ops[k].data| % f.inFrame == 0
    ensures DecodeAll(f, ops).content == Submitted(ops)
    ensures DecodeAll(f, ops).frame * f.inFrame == ToScale(SeekTime(ops), f.rate) * f.inFrame + |Submitted(ops)|
  {
    if ops == [] {
      assert ToScale(0, f.rate) == 0;
    } else {
      var before, op := ops[..|ops| - 1], ops[|ops| - 1];
      NothingIsLost(f, before);
      if op.OpData? && op.first != P.StopCommand && op.first != P.SeekCommand {
        DataIsAppended(f, DecodeAll(f, before), op);
      }
    }
  }

  /** One operation on the bridge. */
  method Perform(b: Bridge, f: Formats, op: Op)
    requires b.Valid() && FormatsOk(f)
    requires b.inFrame == f.inFrame && b.rate == f.rate && b.endFrame == EndFrame(f) && b.convert == f.convert
    requires op.OpData? ==> |op.data| % f.inFrame == 0
    modifies b
    ensures b.Valid()
    ensures (op.OpData? ==> Quietly(op.env)) ==>
              Decoded(b.fed, b.Content(), b.absoluteFrame) ==
              Decode(f, Decoded(old(b.fed), old(b.Content()), old(b.absoluteFrame)), op)
  {
    match op
    case OpSeek(time) =>
      b.CommandFinished(false, true, time);
    case OpTag(fromStream, tag, initialSeek, env) =>
      var _, _ := b.SubmitTag(fromStream, tag, initialSeek, env);
    case OpData(fromStream, data, first, env) =>
      var _, _, _ := b.SubmitData(fromStream, data, first, env);
  }

  /** No command interrupts a submission of data. */
  predicate Uninterrupted(ops: seq<Op>) {
    forall k :: 0 <= k < |ops| && ops[k].OpData? ==> Quietly(ops[k].env)
  }

  /** Any history of submissions, tags and seeks that no command interrupts: the chunks hold the
      converted data since the last seek, in order, and the frame counter tells how far it is. */
  method Drive(f: Formats, capacity: nat, merge: (Tag, Tag) -> Tag, songTag: Option<Tag>, ops: seq<Op>)
    returns (content: seq<Byte>, frame: nat)
    requires FormatsOk(f) && f.outFrame <= capacity
    requires forall k :: 0 <= k < |ops| && ops[k].OpData? ==> |ops[k].data| % f.inFrame == 0
    ensures Uninterrupted(ops) ==> content == DecodeAll(f, ops).content && frame == DecodeAll(f, ops).frame
    ensures Uninterrupted(ops) && f.endTime == 0 && PassesThrough(f.convert) ==> content == Submitted(ops)
  {
    var b := new Bridge(f, capacity, merge, songTag);
    for k := 0 to |ops|
      invariant fresh(b) && b.Valid()
      invariant b.inFrame == f.inFrame && b.rate == f.rate && b.endFrame == EndFrame(f) && b.convert == f.convert
      invariant Uninterrupted(ops) ==> Decoded(b.fed, b.Content(), b.absoluteFrame) == DecodeAll(f, ops[..k])
    {
      assert ops[..k + 1][..k] == ops[..k];
      Perform(b, f, ops[k]);
    }
    assert ops[..|ops|] == ops;
    content, frame := Joined(b.pushed) + CurrentData(b.current), b.absoluteFrame;
    if f.endTime == 0 && PassesThrough(f.convert) {
      NothingIsLost(f, ops);
    }
  }
}
