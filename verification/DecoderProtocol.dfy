/**
 The decoder protocol: the player thread (src/decoder/Control.cxx), the decoder thread
 (src/decoder/Thread.cxx) and a decoder plugin calling the bridge (src/decoder/Bridge.cxx).

 A step is what a thread does while it holds DecoderControl::mutex, or between two points
 where it takes it.  Each chunk is a number: how many SEEK commands had been acknowledged
 when it was created.
 */
module DecoderProtocol {
  import opened Prelude

  datatype DecoderState = Stopped | Starting | Decoding | Failed

  datatype Command = NoCommand | StartCommand | StopCommand | SeekCommand

  /** DecoderControl, without times: only whether they are positive matters. */
  datatype Control = Control(
    state: DecoderState, command: Command, quit: bool,
    seekError: bool, seekable: bool, startPositive: bool, seekPositive: bool, essential: bool)

  /** DecoderBridge. `hadChunk` records whether it ever had a chunk. */
  datatype Bridge = Bridge(
    initialPending: bool, initialRunning: bool, seeking: bool, error: bool,
    current: Option<nat>, hadChunk: bool)

  /** What the plugin knows: the last command it was told, and whether it is seeking. */
  datatype Plugin = Plugin(seen: Command, inSeek: bool)

  datatype Pc =
    | Top                      // RunThread(), the mutex is locked
    | InPlugin                 // the plugin runs, the mutex is not locked
    | InSubmit                 // the plugin is in SubmitData() or SubmitTag(), past the first check
    | FlushLast(ok: bool)      // the plugin has returned
    | Finish(ok: bool)         // the rest of decoder_run_song() and decoder_run()
    | Exited

  /** What the player thread waits for. */
  datatype PlayerPc = Free | InStart | InStop | InStopAgain | InSeek | InSeekStartup | Quitting | InQuit

  datatype State = State(dc: Control, pipe: seq<nat>, acks: nat, bridge: Bridge, plugin: Plugin, pc: Pc,
                         player: PlayerPc)

  datatype Action =
    // the player thread
    | Start(startPositive: bool, essential: bool)
    | Stop
    | Seek(seekPositive: bool)
    | SetQuit                  // Quit() sets `quit`, without the mutex
    | PostStop                 // Quit() sends STOP, and waits for the thread
    | Resume                   // the player finds its wait is over
    | Shift                    // the player takes a chunk from the pipe
    // the decoder thread
    | Run(badPath: bool)       // one iteration of RunThread(), until the plugin is called
    | FlushAtEnd(empty: bool)  // CheckFlushChunk()
    | FinishRun
    // calls of the plugin
    | Ready(canSeek: bool, convertFails: bool)
    | GetCommand
    | GetSeekTime
    | CommandFinished
    | SeekError
    | SubmitData
    | SubmitTag
    | SubmitReplayGain(empty: bool)
    | ReadFails
    | NextPlugin               // the next plugin is tried
    | PluginReturn(ok: bool)
    // inside of SubmitData() and SubmitTag()
    | TakeChunk
    | FlushChunk(empty: bool)
    | ConvertFails
    | Leave(result: Command)

  predicate IsIdle(dc: Control) { dc.state == Stopped || dc.state == Failed }

  // --- the bridge ------------------------------------------------------------------------

  /** PrepareInitialSeek() says yes. */
  predicate InitialSeek(b: Bridge, dc: Control) {
    dc.state == Decoding && (b.initialRunning || (b.initialPending && dc.seekable && dc.command == NoCommand))
  }

  /** What PrepareInitialSeek() does to the flags. */
  function PrepareInitialSeek(b: Bridge, dc: Control): Bridge {
    if dc.state != Decoding || b.initialRunning || !b.initialPending then b
    else b.(initialPending := false, initialRunning := dc.seekable && dc.command == NoCommand)
  }

  function AfterGetVirtualCommand(b: Bridge, dc: Control): Bridge {
    if b.error then b else PrepareInitialSeek(b, dc)
  }

  function GetVirtualCommand(b: Bridge, dc: Control): Command {
    if b.error then StopCommand else
    if InitialSeek(b, dc) then SeekCommand else dc.command
  }

  function Flushed(s: State, empty: bool): State
    requires s.bridge.current.Some?
  {
    s.(bridge := s.bridge.(current := None), pipe := if empty then s.pipe else s.pipe + [s.bridge.current.value])
  }

  function CommandFinishedStep(s: State): State {
    if s.bridge.initialRunning then
      s.(bridge := s.bridge.(initialRunning := false), plugin := Plugin(NoCommand, false))
    else if s.bridge.seeking then
      s.(bridge := s.bridge.(seeking := false, current := None), pipe := [], acks := s.acks + 1,
         dc := s.dc.(command := NoCommand), plugin := Plugin(NoCommand, false))
    else
      s.(dc := s.dc.(command := NoCommand), plugin := Plugin(NoCommand, false))
  }

  function SeekErrorStep(s: State): State {
    if s.bridge.initialRunning then
      s.(bridge := s.bridge.(initialRunning := false, error := s.bridge.error || s.dc.essential),
         plugin := Plugin(NoCommand, false))
    else
      s.(dc := s.dc.(seekError := true, command := NoCommand), bridge := s.bridge.(seeking := false),
         plugin := Plugin(NoCommand, false))
  }

  function SubmitDataStep(s: State): State {
    var cmd := GetVirtualCommand(s.bridge, s.dc);
    s.(bridge := AfterGetVirtualCommand(s.bridge, s.dc),
       plugin := s.plugin.(seen := cmd),
       pc := if cmd == StopCommand || cmd == SeekCommand then InPlugin else InSubmit)
  }

  function SubmitTagStep(s: State): State {
    var seek := InitialSeek(s.bridge, s.dc);
    s.(bridge := PrepareInitialSeek(s.bridge, s.dc),
       plugin := if seek then s.plugin.(seen := SeekCommand) else s.plugin,
       pc := if seek then InPlugin else InSubmit)
  }

  // --- the decoder thread ----------------------------------------------------------------

  const NO_BRIDGE := Bridge(false, false, false, false, None, false)

  /** decoder_run() up to the point where the plugin is called: the path of the song may be
      bad, otherwise the command is acknowledged. */
  function BeginRun(s: State, badPath: bool): State {
    var late := s.dc.command == SeekCommand;
    var acks := if late then s.acks + 1 else s.acks;
    if badPath then
      s.(dc := s.dc.(state := Failed, command := NoCommand), acks := acks, pc := Top)
    else
      var positive := if late then s.dc.seekPositive else s.dc.startPositive;
      s.(dc := s.dc.(state := Starting, command := NoCommand, startPositive := positive), acks := acks,
         bridge := NO_BRIDGE.(initialPending := positive), plugin := Plugin(NoCommand, false), pc := InPlugin)
  }

  /** The condition of the loop in RunThread(). */
  function Looped(s: State): State {
    if s.dc.command == NoCommand && s.dc.quit && s.pc == Top then s.(pc := Exited) else s
  }

  function RunStep(s: State, badPath: bool): State {
    match s.dc.command
    case NoCommand => Looped(s)
    case StopCommand => Looped(s.(dc := s.dc.(command := NoCommand)))
    case StartCommand => Looped(BeginRun(s, badPath))
    case SeekCommand => Looped(BeginRun(s.(pipe := []), badPath))
  }

  /** decoder_run() after the plugin: STOP, or ERROR and every command is acknowledged. */
  function FinishRunStep(s: State, ok: bool): State {
    if ok && !s.bridge.error then Looped(s.(dc := s.dc.(state := Stopped), bridge := NO_BRIDGE, pc := Top))
    else
      Looped(s.(dc := s.dc.(state := Failed, command := NoCommand), bridge := NO_BRIDGE, pc := Top,
                acks := if s.dc.command == SeekCommand then s.acks + 1 else s.acks))
  }

  // --- the player thread -----------------------------------------------------------------

  function StopStep(s: State): State {
    if s.dc.command != NoCommand then s.(dc := s.dc.(command := StopCommand), player := InStopAgain)
    else if !IsIdle(s.dc) then s.(dc := s.dc.(command := StopCommand), player := InStop)
    else s
  }

  function SeekStep(s: State, positive: bool): State {
    if s.dc.state == Stopped || !s.dc.seekable then s   // an exception
    else s.(dc := s.dc.(seekPositive := positive, seekError := false, command := SeekCommand), player := InSeek)
  }

  /** WaitCommandLocked() returns. */
  function ResumeStep(s: State): State {
    match s.player
    case InStopAgain => StopStep(s.(player := Free))
    case InSeek => s.(player := InSeekStartup)
    case _ => s.(player := Free)
  }

  // --- all steps -------------------------------------------------------------------------

  /** When an action can happen.  For the player: what the source asserts, and that a decoder
      is only started when idle.  For the plugin: what its interface asks of it. */
  predicate Enabled(s: State, a: Action) {
    match a
    case Start(_, _) => s.player == Free && IsIdle(s.dc)
    case Stop => s.player == Free
    case Seek(_) => s.player == Free && s.dc.state != Starting && s.dc.state != Failed
    case SetQuit => s.player == Free
    case PostStop => s.player == Quitting
    case Resume =>
      s.player != Free && s.player != Quitting && s.player != InQuit && s.dc.command == NoCommand &&
      (s.player == InSeekStartup ==> s.dc.state != Starting)
    case Shift => s.pipe != []
    case Run(_) => s.pc == Top
    case FlushAtEnd(_) => s.pc.FlushLast?
    case FinishRun => s.pc.Finish?
    case Ready(_, _) => s.pc == InPlugin && s.dc.state == Starting
    case GetCommand => s.pc == InPlugin
    case GetSeekTime => s.pc == InPlugin && s.plugin.seen == SeekCommand
    case CommandFinished => s.pc == InPlugin && s.plugin.inSeek
    case SeekError => s.pc == InPlugin && (s.plugin.seen == SeekCommand || s.plugin.inSeek)
    case SubmitData => s.pc == InPlugin && s.dc.state == Decoding
    case SubmitTag => s.pc == InPlugin && s.dc.state == Decoding && !s.plugin.inSeek
    case SubmitReplayGain(_) => s.pc == InPlugin && !s.plugin.inSeek
    case ReadFails => s.pc == InPlugin
    case NextPlugin => s.pc == InPlugin && s.dc.state == Starting
    case PluginReturn(_) => s.pc == InPlugin && !s.plugin.inSeek
    case TakeChunk => s.pc == InSubmit && s.bridge.current.None?
    case FlushChunk(_) => s.pc == InSubmit && s.bridge.current.Some?
    case ConvertFails => s.pc == InSubmit
    case Leave(result) => s.pc == InSubmit && (result == NoCommand || result == StopCommand || result == s.dc.command)
  }

  function Step(s: State, a: Action): State
    requires Enabled(s, a)
  {
    match a
    case Start(positive, essential) =>
      s.(dc := s.dc.(state := Stopped, startPositive := positive, essential := essential, command := StartCommand),
         pipe := [], player := InStart)
    case Stop => StopStep(s)
    case Seek(positive) => SeekStep(s, positive)
    case SetQuit => s.(dc := s.dc.(quit := true), player := Quitting)
    case PostStop => s.(dc := s.dc.(command := StopCommand), player := InQuit)
    case Resume => ResumeStep(s)
    case Shift => s.(pipe := s.pipe[1..])
    case Run(badPath) => RunStep(s, badPath)
    case FlushAtEnd(empty) => (if s.bridge.current.Some? then Flushed(s, empty) else s).(pc := Finish(s.pc.ok))
    case FinishRun => FinishRunStep(s, s.pc.ok)
    case Ready(canSeek, convertFails) =>
      s.(dc := s.dc.(state := Decoding, seekable := canSeek),
         bridge := s.bridge.(error := s.bridge.error || convertFails))
    case GetCommand =>
      s.(bridge := AfterGetVirtualCommand(s.bridge, s.dc),
         plugin := s.plugin.(seen := GetVirtualCommand(s.bridge, s.dc)))
    case GetSeekTime =>
      s.(bridge := if s.bridge.initialRunning then s.bridge else s.bridge.(seeking := true),
         plugin := s.plugin.(inSeek := true))
    case CommandFinished => CommandFinishedStep(s)
    case SeekError => SeekErrorStep(s)
    case SubmitData => SubmitDataStep(s)
    case SubmitTag => SubmitTagStep(s)
    case SubmitReplayGain(empty) => if s.bridge.current.Some? then Flushed(s, empty) else s
    case ReadFails => s.(bridge := s.bridge.(error := true))
    case NextPlugin => s.(bridge := s.bridge.(error := false))
    case PluginReturn(ok) => s.(pc := FlushLast(ok))
    case TakeChunk => s.(bridge := s.bridge.(current := Some(s.acks), hadChunk := true))
    case FlushChunk(empty) => Flushed(s, empty)
    case ConvertFails =>
      s.(bridge := s.bridge.(error := true), plugin := s.plugin.(seen := StopCommand), pc := InPlugin)
    case Leave(result) => s.(plugin := s.plugin.(seen := result), pc := InPlugin)
  }

  predicate Initial(s: State) {
    && s.dc.state == Stopped && s.dc.command == NoCommand && !s.dc.quit && s.pipe == []
    && s.bridge == NO_BRIDGE && s.plugin == Plugin(NoCommand, false) && s.pc == Top && s.player == Free
  }

  predicate IsRun(states: seq<State>, actions: seq<Action>) {
    && |states| == |actions| + 1 && Initial(states[0])
    && forall k :: 0 <= k < |actions| ==> Enabled(states[k], actions[k]) && states[k + 1] == Step(states[k], actions[k])
  }
}
