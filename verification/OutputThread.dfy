/**
 One audio output: the fields of AudioOutputControl and AudioOutputSource that
 the shared pipe protocol touches, and the output thread as a step function
 (src/output/Thread.cxx, src/output/Source.cxx).

 The thread holds the output's mutex except at the places where the source
 releases it (ScopeUnlock, condition waits).  Each such place is a program
 counter; one step runs from one release to the next.  `Choice` supplies what the
 device, the filter and the player's format decide.
 */
module OutputThread {
  import opened Prelude
  import opened PipeCursor

  /** Where a MusicChunk lives. */
  type Address = nat

  datatype Command = NONE | ENABLE | DISABLE | OPEN | CLOSE | PAUSE | RELEASE | DRAIN | CANCEL | KILL

  /** Where InternalPlay() has released the mutex, with a chunk in hand. */
  datatype LoopStage =
    | Filtering(inLoop: bool)   // Fill(): the filter runs
    | Notifying                 // every 64th chunk: ChunksConsumed()
    | SendingTag                // PlayChunk(): output->SendTag()
    | Delaying                  // PlayChunk(): WaitForDelay()
    | PlayingData               // PlayChunk(): output->Play()

  /** Where the branch of a command has released the mutex, not having finished it. */
  datatype BranchStage =
    | Enabling                  // ENABLE or OPEN: output->Enable()
    | OpenClosing               // OPEN: InternalCloseOutput() before reopening
    | OpenDevice                // OPEN: OpenOutputAndConvert()
    | OpenAborting              // OPEN: InternalCloseOutput() after a convert failure
    | OpenMixer                 // OPEN: OpenSoftwareMixer()
    | ClosingDevice             // InternalClose(): output->Close()
    | Disabling                 // DISABLE or KILL: output->Disable()
    | BeginningPause            // PAUSE or RELEASE: output->BeginPause()
    | Draining                  // DRAIN: source.Flush() and output->Drain()
    | CancellingDevice          // CANCEL: output->Cancel()

  /** What InternalClose returns to when no command asked for it. */
  datatype AfterClose = ToTask | ToLeaving | ToEndPause

  datatype Pc =
    | Task                      // top of the Task() loop, or waiting in wake_cond
    | Loop(loop: LoopStage)
    | Leaving                   // InternalPlay(): final ChunksConsumed()
    | Closing(after: AfterClose) // InternalClose() after a failure: output->Close()
    | Branch(executing: Command, stage: BranchStage)
    | Paused                    // InternalPause() loop, the command already finished
    | EndingPause               // InternalPause(): output->EndPause()
    | Dead                      // Task() has returned

  /** AudioOutputSource. */
  datatype Source = Source(
    open: bool,               // IsOpen()
    cursor: Cursor<Address>,
    current: bool,            // current_chunk != nullptr; it is then the cursor's chunk
    pendingTag: bool,
    pendingData: bool,        // !pending_data.empty()
    // history, read by no step: the chunks fetched since the source was last opened,
    // cancelled or closed, and where they start in the sequence of pushed chunks
    fetched: seq<Address>,
    start: nat
  )

  /** History, read by no step: how many commands were issued, taken and finished. */
  datatype Counts = Counts(issued: nat, taken: nat, finished: nat)

  /** AudioOutputControl. */
  datatype Output = Output(
    command: Command,
    open: bool,
    allowPlay: bool,
    caughtInterrupted: bool,
    reallyEnabled: bool,
    sendTags: bool,           // the "tags" setting
    source: Source,
    pc: Pc,
    counts: Counts
  )

  /** Everything the step functions leave to the environment. */
  datatype Choice = Choice(
    failed: bool,        // the device or filter call throws
    interrupted: bool,   // it throws AudioOutputInterrupted
    hasTag: bool,        // the fetched chunk carries a tag
    hasData: bool,       // the filter returns PCM data
    drained: bool,       // output->Play() took all pending data
    delay: bool,         // output->Delay() is positive
    notify: bool,        // 64 chunks have been played
    filterFailed: bool,  // the filter cannot be opened
    formatChanged: bool, // the filter's output format differs from the open device
    alwaysOn: bool       // the "always_on" setting
  )

  // --- AudioOutputSource ------------------------------------------------------

  /** AudioOutputSource::Cancel. */
  function SourceCancel(u: Source): Source {
    u.(cursor := u.cursor.(chunk := None), current := false, fetched := [], start := 0)
  }

  /** AudioOutputSource::Close. */
  function SourceClose(u: Source): Source {
    SourceCancel(u).(open := false)
  }

  /** AudioOutputSource::Open up to the filter: a source that was not open starts over. */
  function SourceInit(u: Source): Source {
    if u.open then u else SourceCancel(u)
  }

  /** AudioOutputSource::DropCurrentChunk. */
  function DropCurrentChunk(u: Source): Source {
    u.(current := false, cursor := u.cursor.(consumed := true))
  }

  /** The first half of AudioOutputSource::Fill: a chunk with nothing pending is dropped. */
  function FillDrop(u: Source): Source {
    if u.current && !u.pendingTag && !u.pendingData then DropCurrentChunk(u) else u
  }

  /** The second half of AudioOutputSource::Fill: ask the pipe for a chunk. */
  function FillGet(u: Source, pipe: seq<Address>, shifted: nat, hasTag: bool): Source {
    var got := Got(u.cursor, pipe);
    var u1 := u.(cursor := Advance(u.cursor, pipe));
    if got.None? then u1
    else u1.(current := true, pendingTag := hasTag, fetched := u.fetched + [got.value],
             start := if u.fetched == [] then shifted else u.start)
  }

  // --- InternalPlay -----------------------------------------------------------

  /** Top of the InternalPlay loop: Fill has provided a chunk. */
  function LoopTop(o: Output, pipe: seq<Address>, shifted: nat, ch: Choice): Output {
    if o.command != NONE then o.(pc := Task)
    else if ch.notify then o.(pc := Loop(Notifying))
    else PlayTag(o, pipe, shifted, ch)
  }

  /** PlayChunk, first part: the pending tag is read in any case. */
  function PlayTag(o: Output, pipe: seq<Address>, shifted: nat, ch: Choice): Output {
    var o1 := o.(source := o.source.(pendingTag := false));
    if o.sendTags && o.source.pendingTag then o1.(pc := Loop(SendingTag))
    else PlayData(o1, pipe, shifted, ch)
  }

  /** PlayChunk, its while loop, and the Fill that follows it. */
  function PlayData(o: Output, pipe: seq<Address>, shifted: nat, ch: Choice): Output {
    if o.command == NONE && o.source.pendingData then
      o.(pc := Loop(if ch.delay then Delaying else PlayingData))
    else
      Refill(o, pipe, shifted, ch)
  }

  /** The FillSourceOrClose() that decides whether the InternalPlay loop goes on. */
  function Refill(o: Output, pipe: seq<Address>, shifted: nat, ch: Choice): Output {
    var u := FillDrop(o.source);
    if u.current then o.(source := u, pc := Task)   // only left over because of a command
    else
      var u' := FillGet(u, pipe, shifted, ch.hasTag);
      o.(source := u', pc := if u'.current then Loop(Filtering(true)) else Leaving)
  }

  /** InternalPlay, entered from the Task loop. */
  function InternalPlay(o: Output, pipe: seq<Address>, shifted: nat, ch: Choice): Output {
    var u := FillDrop(o.source);
    if u.current then LoopTop(o.(source := u), pipe, shifted, ch)
    else
      var u' := FillGet(u, pipe, shifted, ch.hasTag);
      o.(source := u', pc := if u'.current then Loop(Filtering(false)) else Task)
  }

  // --- commands ---------------------------------------------------------------

  /** AudioOutputControl::CommandFinished, after which the Task loop starts over. */
  function Finish(o: Output): Output {
    o.(command := NONE, counts := o.counts.(finished := o.counts.finished + 1), pc := Task)
  }

  /** The beginning of InternalClose: `open` is cleared before the mutex is released. */
  function BeginClose(o: Output, pc: Pc): Output {
    o.(open := false, pc := pc)
  }

  /** The end of DISABLE and KILL. */
  function FinishDisable(o: Output): Output {
    if o.command == KILL then Finish(o.(source := SourceCancel(o.source))).(pc := Dead) else Finish(o)
  }

  /** InternalDisable, up to the first release of the mutex. */
  function BeginDisable(o: Output): Output {
    if !o.reallyEnabled then FinishDisable(o)
    else if o.open then BeginClose(o, Branch(o.command, ClosingDevice))
    else o.(reallyEnabled := false, pc := Branch(o.command, Disabling))
  }

  /** InternalOpen once the device is enabled, up to the first release of the mutex. */
  function OpenSource(o: Output, ch: Choice): Output {
    var u := SourceInit(o.source);
    if ch.filterFailed then
      Finish(o.(caughtInterrupted := false, source := u))
    else if o.open && ch.formatChanged then
      o.(caughtInterrupted := false, source := u.(open := true), open := false, pc := Branch(OPEN, OpenClosing))
    else if !o.open then
      o.(caughtInterrupted := false, source := u.(open := true), pc := Branch(OPEN, OpenDevice))
    else if ch.failed then   // ConfigureConvertFilter throws
      o.(caughtInterrupted := false, source := u.(open := true), open := false, pc := Branch(OPEN, OpenAborting))
    else
      o.(caughtInterrupted := false, source := u.(open := true), pc := Branch(OPEN, OpenMixer))
  }

  /** The switch in Task(), for a pending command. */
  function Execute(o: Output, ch: Choice): Output {
    match o.command
    case ENABLE => if o.reallyEnabled then Finish(o) else o.(pc := Branch(ENABLE, Enabling))
    case DISABLE => BeginDisable(o)
    case OPEN => if o.reallyEnabled then OpenSource(o, ch) else o.(pc := Branch(OPEN, Enabling))
    case CLOSE => if o.open then BeginClose(o, Branch(CLOSE, ClosingDevice)) else Finish(o)
    case PAUSE => if o.open then o.(caughtInterrupted := false, pc := Branch(PAUSE, BeginningPause)) else Finish(o)
    case RELEASE =>
      if !o.open then Finish(o)
      else if ch.alwaysOn then
        o.(caughtInterrupted := false, source := SourceCancel(o.source), pc := Branch(RELEASE, BeginningPause))
      else BeginClose(o.(caughtInterrupted := false), Branch(RELEASE, ClosingDevice))
    case DRAIN => if o.open then o.(pc := Branch(DRAIN, Draining)) else Finish(o)
    case CANCEL =>
      var o1 := o.(caughtInterrupted := false, source := SourceCancel(o.source));
      if o.open then o1.(pc := Branch(CANCEL, CancellingDevice)) else Finish(o1)
    case KILL => BeginDisable(o)
    case NONE => o
  }

  /** Taking a command: it counts as taken, and its branch is entered. */
  function Take(o: Output, ch: Choice): Output {
    Execute(o.(counts := o.counts.(taken := o.counts.taken + 1)), ch)
  }

  /** A step inside InternalPlay(). */
  function LoopStep(o: Output, stage: LoopStage, pipe: seq<Address>, shifted: nat, ch: Choice): Output {
    match stage
    case Filtering(inLoop) =>
      if ch.failed then
        BeginClose(o.(source := o.source.(current := false)), Closing(if inLoop then ToLeaving else ToTask))
      else LoopTop(o.(source := o.source.(pendingData := ch.hasData)), pipe, shifted, ch)
    case Notifying => PlayTag(o, pipe, shifted, ch)
    case SendingTag =>
      if ch.interrupted then o.(caughtInterrupted := true, pc := Leaving)
      else PlayData(o, pipe, shifted, ch)
    case Delaying =>
      if o.command != NONE then Refill(o, pipe, shifted, ch)
      else o.(pc := Loop(if ch.delay then Delaying else PlayingData))
    case PlayingData =>
      if ch.interrupted then o.(caughtInterrupted := true, pc := Leaving)
      else if ch.failed then BeginClose(o, Closing(ToLeaving))
      else if ch.drained then
        PlayData(o.(source := DropCurrentChunk(o.source.(pendingData := false))), pipe, shifted, ch)
      else PlayData(o, pipe, shifted, ch)
  }

  /** A step inside the branch of a command. */
  function BranchStep(o: Output, stage: BranchStage, ch: Choice): Output {
    match stage
    case Enabling =>
      if ch.failed then Finish(o)
      else if o.command == OPEN then OpenSource(o.(reallyEnabled := true), ch)
      else Finish(o.(reallyEnabled := true))
    case OpenClosing => o.(pc := Branch(OPEN, OpenDevice))
    case OpenDevice =>
      if ch.failed then Finish(o.(source := SourceClose(o.source)))
      else o.(open := true, pc := Branch(OPEN, OpenMixer))
    case OpenAborting => Finish(o.(source := SourceClose(o.source)))
    case OpenMixer => Finish(o)
    case ClosingDevice =>
      var o1 := o.(source := SourceClose(o.source));
      if o.command == DISABLE || o.command == KILL
      then o1.(reallyEnabled := false, pc := Branch(o.command, Disabling)) else Finish(o1)
    case Disabling => FinishDisable(o)
    case BeginningPause => Finish(o).(pc := Paused)
    case Draining => if ch.failed then BeginClose(o, Branch(DRAIN, ClosingDevice)) else Finish(o)
    case CancellingDevice => Finish(o)
  }

  /** A step at the top of Task(): execute a command, play, or wait for a signal. */
  function TaskStep(o: Output, pipe: seq<Address>, shifted: nat, ch: Choice): Output {
    if o.command != NONE then Take(o, ch)
    else if o.open && o.allowPlay && !o.caughtInterrupted then InternalPlay(o, pipe, shifted, ch)
    else o
  }

  /** A step that neither plays nor executes a command. */
  function QuietStep(o: Output, ch: Choice): Output {
    match o.pc
    case Leaving => o.(pc := Task)
    case Closing(after) =>
      o.(source := SourceClose(o.source),
         pc := if after.ToTask? then Task else if after.ToLeaving? then Leaving else EndingPause)
    case Paused =>
      if ch.failed then BeginClose(o, Closing(ToEndPause))
      else if o.command != NONE then o.(pc := EndingPause)
      else o
    case EndingPause => o.(pc := Task)
    case _ => o
  }

  /** One step of the output thread, from one release of the mutex to the next. */
  function Step(o: Output, pipe: seq<Address>, shifted: nat, ch: Choice): Output {
    if o.pc.Task? then TaskStep(o, pipe, shifted, ch)
    else if o.pc.Loop? then LoopStep(o, o.pc.loop, pipe, shifted, ch)
    else if o.pc.Branch? then BranchStep(o, o.pc.stage, ch)
    else QuietStep(o, ch)
  }
}
