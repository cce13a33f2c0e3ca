/**
 The player and any number of output threads on one music pipe
 (src/output/MultipleOutputs.cxx, src/output/Control.cxx).

 `pushed` is every chunk ever pushed, `shifted` how many have left the pipe
 again, so the pipe itself is pushed[shifted..].  A step is one critical section
 of the player or of one output thread; runs interleave them freely.
 */
module SharedPipe {
  import opened Prelude
  import opened PipeCursor
  import opened OutputThread

  /** What WaitAll() is part of. */
  datatype Purpose = ForCommands | ForCancel

  datatype PlayerPc =
    | Idle
    | Issuing                      // sending commands to outputs
    | Waiting(i: nat, purpose: Purpose)   // WaitAll(), at output i
    | Cancelling(i: nat)           // Cancel(): LockCancelAsync() on output i
    | Clearing                     // Cancel(): MusicPipe::Clear()
    | Scanning(i: nat)             // CheckPipe(): LockIsChunkConsumed() on output i
    | ClearingTail(i: nat)         // CheckPipe(): LockClearTailChunk() on output i
    | ShiftingTail                 // CheckPipe(): Shift() of the last chunk
    | Allowing(i: nat)             // LockAllowPlay() on output i
    | ClosingAll(i: nat)           // Close(): LockCloseWait() on output i
    | ClosingWait(i: nat)          // Close(): output i executes CLOSE

  datatype State = State(
    outputs: seq<Output>,
    pushed: seq<Address>,
    shifted: nat,
    player: PlayerPc
  )

  /** What the player may do next when it has a choice. */
  datatype PlayerChoice =
    | Push(chunk: Address)
    | BeginCommands
    | Send(output: nat, command: Command)
    | EndCommands
    | BeginCancel
    | BeginCheckPipe
    | BeginCloseAll
    | Proceed

  predicate InRange(s: State) { s.shifted <= |s.pushed| }

  /** The chunks in the pipe, head first. */
  function Pipe(s: State): seq<Address>
    requires InRange(s)
  {
    s.pushed[s.shifted..]
  }

  // --- critical sections of AudioOutputControl called by the player -------------

  /** AudioOutputControl::CommandAsync; it asserts that no command is outstanding. */
  function CommandAsync(o: Output, c: Command): Output {
    o.(command := c, counts := o.counts.(issued := o.counts.issued + 1))
  }

  /** AudioOutputControl::LockCancelAsync. */
  function CancelAsync(o: Output): Output {
    if o.open then CommandAsync(o.(allowPlay := false), CANCEL) else o
  }

  /** AudioOutputControl::IsChunkConsumed. */
  predicate ChunkConsumed(o: Output, pipe: seq<Address>, chunk: Address) {
    !o.open || IsConsumed(o.source.cursor, pipe, chunk)
  }

  /** AudioOutputControl::ClearTailChunk. */
  function ClearTailChunk(o: Output): Output {
    if o.open then o.(source := o.source.(cursor := o.source.cursor.(chunk := None)), allowPlay := false) else o
  }

  // --- steps ------------------------------------------------------------------

  function SetOutput(s: State, i: nat, o: Output, next: PlayerPc): State
    requires i < |s.outputs|
  {
    s.(outputs := s.outputs[i := o], player := next)
  }

  function PlayerStep(s: State, ch: PlayerChoice): State
    requires InRange(s)
  {
    var n := |s.outputs|;
    match s.player
    case Idle =>
      (match ch
       case Push(chunk) => if chunk in Pipe(s) then s else s.(pushed := s.pushed + [chunk])
       case BeginCommands => s.(player := Issuing)
       case BeginCancel => s.(player := Cancelling(0))
       case BeginCheckPipe => if Pipe(s) == [] then s else s.(player := Scanning(0))
       case BeginCloseAll => s.(player := ClosingAll(0))
       case _ => s)
    case Issuing =>
      (match ch
       case Send(i, c) =>
         if i < n && s.outputs[i].command == NONE && c !in {NONE, CANCEL}
         then SetOutput(s, i, CommandAsync(s.outputs[i], c), Issuing) else s
       case EndCommands => s.(player := Waiting(0, ForCommands))
       case _ => s)
    case Waiting(i, purpose) =>
      if i < n then
        if s.outputs[i].command == NONE then s.(player := Waiting(i + 1, purpose)) else s
      else s.(player := if purpose == ForCancel then Clearing else Idle)
    case Cancelling(i) =>
      if i < n then SetOutput(s, i, CancelAsync(s.outputs[i]), Cancelling(i + 1))
      else s.(player := Waiting(0, ForCancel))
    case Clearing =>
      if Pipe(s) == [] then s.(player := Allowing(0)) else s.(shifted := s.shifted + 1)
    case Scanning(i) =>
      if Pipe(s) == [] then s.(player := Idle)
      else if i < n then
        s.(player := if ChunkConsumed(s.outputs[i], Pipe(s), Pipe(s)[0]) then Scanning(i + 1) else Idle)
      else if NextOf(Pipe(s), Pipe(s)[0]).None? then s.(player := ClearingTail(0))
      else s.(shifted := s.shifted + 1, player := Scanning(0))
    case ClearingTail(i) =>
      if i < n then SetOutput(s, i, ClearTailChunk(s.outputs[i]), ClearingTail(i + 1))
      else s.(player := ShiftingTail)
    case ShiftingTail =>
      if Pipe(s) == [] then s else s.(shifted := s.shifted + 1, player := Allowing(0))
    case Allowing(i) =>
      if i < n then SetOutput(s, i, s.outputs[i].(allowPlay := true), Allowing(i + 1))
      else s.(player := Idle)
    case ClosingAll(i) =>
      if i < n then
        if s.outputs[i].open then SetOutput(s, i, CommandAsync(s.outputs[i], CLOSE), ClosingWait(i))
        else s.(player := ClosingAll(i + 1))
      else s.(shifted := |s.pushed|, player := Idle)   // pipe.reset()
    case ClosingWait(i) =>
      if i < n && s.outputs[i].command != NONE then s else s.(player := ClosingAll(i + 1))
  }

  function OutputStep(s: State, i: nat, ch: Choice): State
    requires InRange(s) && i < |s.outputs|
  {
    s.(outputs := s.outputs[i := Step(s.outputs[i], Pipe(s), s.shifted, ch)])
  }

  /** An output as AudioOutputControl's constructor leaves it. */
  predicate Fresh(o: Output) {
    o.command == NONE && !o.open && o.allowPlay && !o.source.open && !o.source.current &&
    o.source.cursor.chunk == None && o.pc == Task && o.source.fetched == [] && o.counts == Counts(0, 0, 0)
  }

  predicate Initial(s: State) {
    s.pushed == [] && s.shifted == 0 && s.player == Idle &&
    forall i :: 0 <= i < |s.outputs| ==> Fresh(s.outputs[i])
  }

  datatype Action = ByPlayer(playerChoice: PlayerChoice) | ByOutput(i: nat, choice: Choice)

  /** One critical section, by whoever is scheduled. */
  predicate Next(s: State, a: Action, s': State) {
    InRange(s) &&
    match a
    case ByPlayer(ch) => s' == PlayerStep(s, ch)
    case ByOutput(i, ch) => i < |s.outputs| && s' == OutputStep(s, i, ch)
  }

  /** A finite run: the states and, between neighbours, the action taken. */
  predicate IsRun(states: seq<State>, actions: seq<Action>) {
    |states| == |actions| + 1 && Initial(states[0]) &&
    forall k :: 0 <= k < |actions| ==> Next(states[k], actions[k], states[k + 1])
  }

  // --- the invariant ----------------------------------------------------------

  /** The output is open, or being reopened by an OPEN command that keeps its cursor. */
  predicate Live(o: Output) {
    o.open || (o.pc.Branch? && Reopening(o.pc.stage))
  }

  predicate Reopening(stage: BranchStage) { stage.OpenClosing? || stage.OpenDevice? }

  /** The stages of the OPEN branch after the source has been opened. */
  predicate InOpen(stage: BranchStage) { Reopening(stage) || stage.OpenAborting? || stage.OpenMixer? }

  /** Commands are counted: one is outstanding exactly while `command` is set, and a
      branch that took one has finished it exactly once when it is left. */
  predicate CommandsOk(o: Output) {
    && o.counts.issued == o.counts.finished + (if o.command == NONE then 0 else 1)
    && o.counts.taken == o.counts.finished + (if o.pc.Branch? then 1 else 0)
    && (o.pc.Branch? ==> o.command == o.pc.executing && o.command != NONE)
  }

  /** The chunk being processed is the cursor's, and not yet consumed. */
  predicate SourceOk(u: Source) {
    u.current ==> u.cursor.chunk.Some? && !u.cursor.consumed
  }

  /** No chunk is half-way: what the cursor points at is being processed or consumed. */
  predicate Steady(u: Source) {
    !u.current && u.cursor.chunk.Some? ==> u.cursor.consumed
  }

  /** The source has been cancelled and has fetched nothing since. */
  predicate Cancelled(u: Source) {
    u.cursor.chunk == None && u.fetched == []
  }

  /** How a branch relates to its command, the device and the source. */
  predicate StageOk(o: Output, stage: BranchStage) {
    && (InOpen(stage) ==> o.command == OPEN)
    && (stage.CancellingDevice? ==> o.command == CANCEL && Cancelled(o.source))
    && (stage.Enabling? ==> o.command == ENABLE || o.command == OPEN)
    && (stage.Disabling? ==> o.command == DISABLE || o.command == KILL)
    && (stage.BeginningPause? ==> o.command == PAUSE || o.command == RELEASE)
    && (stage.Draining? ==> o.command == DRAIN)
    && (stage.OpenMixer? || stage.BeginningPause? || stage.Draining? ==> o.open)
    && (Reopening(stage) || stage.OpenAborting? || stage.Disabling? || stage.ClosingDevice? ==> !o.open)
  }

  /** How the thread's place in the code relates to the source and the device. */
  predicate ThreadOk(o: Output) {
    && SourceOk(o.source)
    && (o.pc.Loop? ==> o.open && o.source.current)
    && (o.pc.Paused? ==> o.open)
    && (o.pc.Closing? ==> !o.open)
    && (o.pc.Branch? ==> StageOk(o, o.pc.stage))
    && (Live(o) ==> o.source.open && Steady(o.source))
    && (o.source.open && !Live(o) ==>
        o.pc.Closing? || (o.pc.Branch? && (o.pc.stage.ClosingDevice? || o.pc.stage.OpenAborting?)))
  }

  /** One past the position of the newest chunk of the run. */
  function RunEnd(u: Source): nat { u.start + |u.fetched| }

  /** The fetched chunks are a contiguous piece of what was pushed. */
  predicate RunOk(u: Source, pushed: seq<Address>) {
    RunEnd(u) <= |pushed| && forall k :: 0 <= k < |u.fetched| ==> u.fetched[k] == pushed[u.start + k]
  }

  /** The cursor sits on the newest fetched chunk, which is still in the pipe; with no
      cursor, the next chunk to fetch is the head. */
  predicate CursorOk(u: Source, shifted: nat) {
    (u.fetched != [] ==> u.start <= shifted) &&
    match u.cursor.chunk
    case Some(a) => u.fetched != [] && a == u.fetched[|u.fetched| - 1] && shifted < RunEnd(u)
    case None => u.fetched == [] || RunEnd(u) == shifted
  }

  /** Between LockClearTailChunk() and Shift(): the cursor is gone while the consumed
      tail is still in the pipe, and only allow_play keeps it from being played again. */
  predicate TailCleared(o: Output, pushed: seq<Address>, shifted: nat) {
    var u := o.source;
    !o.allowPlay && u.cursor.chunk == None && u.cursor.consumed && !u.current && u.fetched != [] &&
    u.start <= shifted && RunEnd(u) == shifted + 1 == |pushed|
  }

  predicate OutputOk(o: Output, pushed: seq<Address>, shifted: nat, cleared: bool) {
    CommandsOk(o) && ThreadOk(o) &&
    (Live(o) ==> RunOk(o.source, pushed) &&
                 if cleared then TailCleared(o, pushed, shifted) else CursorOk(o.source, shifted))
  }

  /** Is output i between its LockClearTailChunk() and the Shift()? */
  predicate Cleared(player: PlayerPc, i: nat) {
    player.ShiftingTail? || (player.ClearingTail? && i < player.i)
  }

  /** The source has finished the head of the pipe, which is the tail as well. */
  predicate OnConsumedTail(u: Source, pushed: seq<Address>, shifted: nat) {
    u.cursor.chunk.Some? && u.cursor.consumed && RunEnd(u) == shifted + 1 == |pushed|
  }

  /** The source is done with the head and, unless the head is the tail, past it. */
  predicate DoneWithHead(u: Source, pushed: seq<Address>, shifted: nat) {
    u.cursor.chunk.Some? && (RunEnd(u) > shifted + 1 || OnConsumedTail(u, pushed, shifted))
  }

  /** What the player's progress says about output i. */
  predicate PhaseOk(player: PlayerPc, i: nat, o: Output, pushed: seq<Address>, shifted: nat) {
    match player
    case Idle => o.command == NONE && o.allowPlay
    case Issuing => o.allowPlay
    case Waiting(k, purpose) =>
      (i < k ==> o.command == NONE) &&
      (purpose == ForCommands ==> o.allowPlay) &&
      (purpose == ForCancel ==> o.command in {NONE, CANCEL} &&
                                (o.open ==> !o.allowPlay && (o.command == CANCEL || Cancelled(o.source))))
    case Cancelling(k) =>
      if i < k then o.command in {NONE, CANCEL} &&
        (o.open ==> !o.allowPlay && (o.command == CANCEL || Cancelled(o.source)))
      else o.command == NONE && o.allowPlay
    case Clearing => o.command == NONE && (o.open ==> !o.allowPlay && Cancelled(o.source))
    case Scanning(k) => o.command == NONE && o.allowPlay &&
      (i < k && o.open ==> DoneWithHead(o.source, pushed, shifted))
    case ClearingTail(k) =>
      o.command == NONE &&
      (i >= k ==> o.allowPlay && (o.open ==> OnConsumedTail(o.source, pushed, shifted)))
    case ShiftingTail => o.command == NONE
    case Allowing(k) => o.command == NONE && (i < k ==> o.allowPlay)
    case ClosingAll(k) => o.command == NONE && o.allowPlay && (i < k ==> !o.open)
    case ClosingWait(k) =>
      o.allowPlay && (if i == k then o.command in {NONE, CLOSE} && (o.command == NONE ==> !o.open)
                      else o.command == NONE) &&
      (i < k ==> !o.open)
  }

  predicate GlobalOk(s: State) {
    && InRange(s)
    && Distinct(Pipe(s))
    && (s.player.Scanning? || s.player.ShiftingTail? ==> s.shifted < |s.pushed|)
    && (s.player.ClearingTail? || s.player.ShiftingTail? ==> |s.pushed| == s.shifted + 1)
    && (s.player.ClosingWait? ==> s.player.i < |s.outputs|)
  }

  predicate Inv(s: State) {
    GlobalOk(s) &&
    forall i :: 0 <= i < |s.outputs| ==>
                  OutputOk(s.outputs[i], s.pushed, s.shifted, Cleared(s.player, i)) &&
                  PhaseOk(s.player, i, s.outputs[i], s.pushed, s.shifted)
  }
}
