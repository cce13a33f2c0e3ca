/**
 What a command has achieved when the output thread has finished it, in every run.
 */
module OutputCommands {
  import opened Prelude
  import opened PipeCursor
  import opened OutputThread
  import opened SharedPipe
  import opened SharedPipeProofs
  import P = OutputPlayback

  /** An open device is enabled. */
  predicate DeviceOk(o: Output) {
    (o.open ==> o.reallyEnabled) && (o.pc.Branch? ==> BranchOk(o, o.pc.stage))
  }

  /** A device that is being opened is enabled, one that is being disabled is not, and one that
      is released while it is always on has no chunk. */
  predicate BranchOk(o: Output, stage: BranchStage) {
    && (InOpen(stage) ==> o.reallyEnabled && !o.caughtInterrupted)
    && (stage.Enabling? || stage.Disabling? ==> !o.reallyEnabled && !o.open)
    && (stage.BeginningPause? ==> !o.caughtInterrupted && (o.command == RELEASE ==> Cancelled(o.source)))
    && (stage.CancellingDevice? ==> !o.caughtInterrupted)
    && (stage.ClosingDevice? ==> o.command in {DISABLE, CLOSE, RELEASE, DRAIN, KILL})
  }

  /** What has become of the output when the command is finished; `o` is the state before the
      last step. */
  predicate Achieved(c: Command, o: Output, o': Output, ch: Choice) {
    match c
    case ENABLE => (o'.reallyEnabled || ch.failed) && o'.source == o.source
    case DISABLE => !o'.reallyEnabled && !o'.open && !o'.source.open
    case OPEN =>
      && (o'.open ==> o'.source.open && o'.reallyEnabled && !o'.caughtInterrupted)
      && (!o'.open ==> ch.failed || ch.filterFailed || o.pc == Branch(OPEN, OpenAborting))
    case CLOSE => !o'.open && !o'.source.open
    case PAUSE => (o'.open <==> o'.pc == Paused) && o'.source == o.source && (o'.open ==> !o'.caughtInterrupted)
    case RELEASE =>
      if !o'.open then o'.pc == Task
      else o'.pc == Paused && !o'.source.current && Cancelled(o'.source) && !o'.caughtInterrupted
    case DRAIN => o'.open == o.open && (o'.open ==> o'.source == o.source)
    case CANCEL => Cancelled(o'.source) && !o'.source.current && o'.open == o.open && !o'.caughtInterrupted
    case KILL => o'.pc == Dead && !o'.open && !o'.reallyEnabled && Cancelled(o'.source)
    case NONE => true
  }

  predicate Finishes(o: Output, o': Output) { o.command != NONE && o'.command == NONE }

  /** Between output->BeginPause() and output->EndPause(). */
  predicate InPause(pc: Pc) { pc.Paused? || pc.EndingPause? || (pc.Closing? && pc.after.ToEndPause?) }

  /** A pause begins with BeginPause() and ends with EndPause(). */
  predicate Bracketed(pc: Pc, pc': Pc) {
    && (InPause(pc) && !InPause(pc') ==> pc.EndingPause?)
    && (!InPause(pc) && InPause(pc') ==> pc'.Paused? && pc.Branch? && pc.stage.BeginningPause?)
  }

  /** The device is about to get data. */
  predicate GivesData(pc: Pc) { pc.Loop? && (pc.loop.Delaying? || pc.loop.PlayingData?) }

  /** What one step keeps, and what it has achieved. */
  predicate StepDone(o: Output, o': Output, ch: Choice) {
    && DeviceOk(o') && (Finishes(o, o') ==> Achieved(o.command, o, o', ch)) && Bracketed(o.pc, o'.pc)
    && (GivesData(o'.pc) ==> o.command == NONE)
  }

  predicate Before(o: Output) { CommandsOk(o) && ThreadOk(o) && DeviceOk(o) }

  /** Playing does not execute commands, and does not open or enable the device; and data is played
      only while no command is pending. */
  predicate OnlyPlays(o: Output, o': Output) {
    && o'.command == o.command && (o'.open ==> o.open) && o'.reallyEnabled == o.reallyEnabled
    && !o'.pc.Branch? && !InPause(o'.pc) && (GivesData(o'.pc) ==> o.command == NONE)
  }

  lemma RefillOnlyPlays(o: Output, pipe: seq<Address>, shifted: nat, ch: Choice)
    ensures OnlyPlays(o, Refill(o, pipe, shifted, ch))
  {
  }

  lemma PlayDataOnlyPlays(o: Output, pipe: seq<Address>, shifted: nat, ch: Choice)
    ensures OnlyPlays(o, Refill(o, pipe, shifted, ch)) && OnlyPlays(o, PlayData(o, pipe, shifted, ch))
  {
    RefillOnlyPlays(o, pipe, shifted, ch);
  }

  lemma LoopTopOnlyPlays(o: Output, pipe: seq<Address>, shifted: nat, ch: Choice)
    ensures OnlyPlays(o, PlayTag(o, pipe, shifted, ch)) && OnlyPlays(o, LoopTop(o, pipe, shifted, ch))
  {
    PlayDataOnlyPlays(o.(source := o.source.(pendingTag := false)), pipe, shifted, ch);
  }

  lemma InternalPlayOnlyPlays(o: Output, pipe: seq<Address>, shifted: nat, ch: Choice)
    ensures OnlyPlays(o, InternalPlay(o, pipe, shifted, ch))
  {
    var u := FillDrop(o.source);
    if u.current {
      LoopTopOnlyPlays(o.(source := u), pipe, shifted, ch);
    }
  }

  lemma PlayedOnlyPlays(o: Output, pipe: seq<Address>, shifted: nat, ch: Choice)
    requires o.pc == Loop(PlayingData)
    ensures OnlyPlays(o, LoopStep(o, PlayingData, pipe, shifted, ch))
  {
    var u := if ch.drained then DropCurrentChunk(o.source.(pendingData := false)) else o.source;
    PlayDataOnlyPlays(o.(source := u), pipe, shifted, ch);
  }

  lemma FilteredOnlyPlays(o: Output, pipe: seq<Address>, shifted: nat, ch: Choice)
    requires o.pc.Loop? && o.pc.loop.Filtering?
    ensures OnlyPlays(o, LoopStep(o, o.pc.loop, pipe, shifted, ch))
  {
    LoopTopOnlyPlays(o.(source := o.source.(pendingData := ch.hasData)), pipe, shifted, ch);
  }

  lemma LoopStepOnlyPlays(o: Output, stage: LoopStage, pipe: seq<Address>, shifted: nat, ch: Choice)
    requires o.pc == Loop(stage)
    ensures OnlyPlays(o, LoopStep(o, stage, pipe, shifted, ch))
  {
    match stage
    case Filtering(_) => FilteredOnlyPlays(o, pipe, shifted, ch);
    case Notifying => LoopTopOnlyPlays(o, pipe, shifted, ch);
    case PlayingData => PlayedOnlyPlays(o, pipe, shifted, ch);
    case _ => PlayDataOnlyPlays(o, pipe, shifted, ch);
  }

  lemma QuietDone(o: Output, ch: Choice)
    requires Before(o) && !o.pc.Loop? && !o.pc.Task? && !o.pc.Branch?
    ensures StepDone(o, QuietStep(o, ch), ch)
  {
  }

  lemma TakeOpenDone(o: Output, ch: Choice)
    requires Before(o) && o.pc.Task? && o.command == OPEN
    ensures StepDone(o, Take(o, ch), ch)
  {
  }

  lemma TakeDisableDone(o: Output, ch: Choice)
    requires Before(o) && o.pc.Task? && (o.command == DISABLE || o.command == KILL)
    ensures StepDone(o, Take(o, ch), ch)
  {
  }

  lemma TakeReleaseDone(o: Output, ch: Choice)
    requires Before(o) && o.pc.Task? && (o.command == RELEASE || o.command == CANCEL)
    ensures StepDone(o, Take(o, ch), ch)
  {
  }

  lemma TakeOtherDone(o: Output, ch: Choice)
    requires Before(o) && o.pc.Task? && (o.command in {ENABLE, CLOSE, PAUSE, DRAIN})
    ensures StepDone(o, Take(o, ch), ch)
  {
  }

  lemma TakeDone(o: Output, ch: Choice)
    requires Before(o) && o.pc.Task? && o.command != NONE
    ensures StepDone(o, Take(o, ch), ch)
  {
    match o.command
    case OPEN => TakeOpenDone(o, ch);
    case DISABLE => TakeDisableDone(o, ch);
    case KILL => TakeDisableDone(o, ch);
    case RELEASE => TakeReleaseDone(o, ch);
    case CANCEL => TakeReleaseDone(o, ch);
    case _ => TakeOtherDone(o, ch);
  }

  lemma OpenDone(o: Output, ch: Choice)
    requires Before(o) && o.pc.Branch? && (InOpen(o.pc.stage) || o.pc.stage.Enabling?)
    ensures StepDone(o, BranchStep(o, o.pc.stage, ch), ch)
  {
  }

  lemma CloseDone(o: Output, ch: Choice)
    requires Before(o) && o.pc.Branch? && (o.pc.stage.ClosingDevice? || o.pc.stage.Disabling?)
    ensures StepDone(o, BranchStep(o, o.pc.stage, ch), ch)
  {
  }

  lemma BranchDone(o: Output, ch: Choice)
    requires Before(o) && o.pc.Branch? && !InOpen(o.pc.stage) && !o.pc.stage.Enabling?
    ensures StepDone(o, BranchStep(o, o.pc.stage, ch), ch)
  {
    if o.pc.stage.ClosingDevice? || o.pc.stage.Disabling? {
      CloseDone(o, ch);
    }
  }

  lemma StepIsDone(o: Output, pipe: seq<Address>, shifted: nat, ch: Choice)
    requires Before(o)
    ensures StepDone(o, Step(o, pipe, shifted, ch), ch)
  {
    if o.pc.Loop? {
      LoopStepOnlyPlays(o, o.pc.loop, pipe, shifted, ch);
    } else if o.pc.Task? {
      if o.command != NONE {
        TakeDone(o, ch);
      } else {
        InternalPlayOnlyPlays(o, pipe, shifted, ch);
      }
    } else if o.pc.Branch? {
      if InOpen(o.pc.stage) || o.pc.stage.Enabling? {
        OpenDone(o, ch);
      } else {
        BranchDone(o, ch);
      }
    } else {
      QuietDone(o, ch);
    }
  }

  // --- runs ------------------------------------------------------------------------------

  lemma AsyncKeepsDevice(o: Output, c: Command)
    requires DeviceOk(o)
    ensures DeviceOk(ClearTailChunk(o)) && DeviceOk(o.(allowPlay := true))
    ensures !o.pc.Branch? ==> DeviceOk(CommandAsync(o, c)) && DeviceOk(CancelAsync(o))
  {
  }

  /** The player issues commands only to an output that executes none. */
  lemma PlayerKeepsDevice(s: State, ch: PlayerChoice, i: nat)
    requires Inv(s) && i < |s.outputs| && DeviceOk(s.outputs[i])
    ensures |PlayerStep(s, ch).outputs| == |s.outputs| && DeviceOk(PlayerStep(s, ch).outputs[i])
  {
    var o := s.outputs[i];
    assert OkAt(s, i);
    AsyncKeepsDevice(o, if ch.Send? then ch.command else CLOSE);
    AsyncKeepsDevice(o, CLOSE);
  }

  lemma NextKeepsDevice(s: State, a: Action, s': State, i: nat)
    requires Inv(s) && Next(s, a, s') && i < |s.outputs| && DeviceOk(s.outputs[i])
    ensures |s'.outputs| == |s.outputs| && DeviceOk(s'.outputs[i])
    ensures a.ByOutput? && a.i == i ==> StepDone(s.outputs[i], s'.outputs[i], a.choice)
  {
    assert OkAt(s, i);
    match a
    case ByPlayer(ch) => PlayerKeepsDevice(s, ch, i);
    case ByOutput(j, ch) => if j == i { StepIsDone(s.outputs[i], Pipe(s), s.shifted, ch); }
  }

  lemma {:induction false} DeviceIsOk(states: seq<State>, actions: seq<Action>, i: nat, k: nat)
    requires IsRun(states, actions) && k < |states| && i < |states[0].outputs|
    ensures i < |states[k].outputs| && DeviceOk(states[k].outputs[i])
  {
    if k > 0 {
      DeviceIsOk(states, actions, i, k - 1);
      RunKeepsInv(states, actions, k - 1);
      NextKeepsDevice(states[k - 1], actions[k - 1], states[k], i);
    }
  }

  /** Whenever a command is finished, it has done what it is for, or the device or the filter has
      failed. */
  lemma CommandHasEffect(states: seq<State>, actions: seq<Action>, i: nat, k: nat)
    requires IsRun(states, actions) && i < |states[0].outputs| && P.StepsAt(states, actions, i, k)
    requires Finishes(states[k].outputs[i], states[k + 1].outputs[i])
    ensures Achieved(states[k].outputs[i].command, states[k].outputs[i], states[k + 1].outputs[i], actions[k].choice)
  {
    DeviceIsOk(states, actions, i, k);
    RunKeepsInv(states, actions, k);
    NextKeepsDevice(states[k], actions[k], states[k + 1], i);
  }

  /** In every step of an output thread, output->BeginPause() comes before a pause, and
      output->EndPause() after it. */
  lemma PauseIsBracketed(states: seq<State>, actions: seq<Action>, i: nat, k: nat)
    requires IsRun(states, actions) && i < |states[0].outputs| && P.StepsAt(states, actions, i, k)
    ensures Bracketed(states[k].outputs[i].pc, states[k + 1].outputs[i].pc)
  {
    DeviceIsOk(states, actions, i, k);
    RunKeepsInv(states, actions, k);
    NextKeepsDevice(states[k], actions[k], states[k + 1], i);
  }

  /** In every run, an output does not begin to give data to the device while a command is
      pending. */
  lemma CommandsComeFirst(states: seq<State>, actions: seq<Action>, i: nat, k: nat)
    requires IsRun(states, actions) && i < |states[0].outputs| && P.StepsAt(states, actions, i, k)
    requires states[k].outputs[i].command != NONE
    ensures !GivesData(states[k + 1].outputs[i].pc)
  {
    DeviceIsOk(states, actions, i, k);
    RunKeepsInv(states, actions, k);
    NextKeepsDevice(states[k], actions[k], states[k + 1], i);
  }

  // --- an interrupted device -----------------------------------------------------------------

  /** The device has thrown AudioOutputInterrupted. */
  predicate Interrupts(o: Output, ch: Choice) {
    (o.pc == Loop(SendingTag) || o.pc == Loop(PlayingData)) && ch.interrupted
  }

  /** Nothing is played. */
  predicate Halted(o: Output) { o.caughtInterrupted && !o.pc.Loop? }

  predicate MayResume(c: Command) { c in {OPEN, PAUSE, RELEASE, CANCEL} }

  lemma InterruptHalts(o: Output, pipe: seq<Address>, shifted: nat, ch: Choice)
    requires Interrupts(o, ch)
    ensures Halted(Step(o, pipe, shifted, ch))
  {
  }

  lemma HaltedTask(o: Output, pipe: seq<Address>, shifted: nat, ch: Choice)
    requires Halted(o) && o.pc.Task? && !MayResume(o.command)
    ensures Halted(TaskStep(o, pipe, shifted, ch))
  {
  }

  lemma HaltedBranch(o: Output, ch: Choice)
    requires Halted(o) && o.pc.Branch? && !MayResume(o.command)
    ensures Halted(BranchStep(o, o.pc.stage, ch))
  {
  }

  lemma StaysHalted(o: Output, pipe: seq<Address>, shifted: nat, ch: Choice)
    requires Halted(o) && !MayResume(o.command)
    ensures Halted(Step(o, pipe, shifted, ch))
  {
    if o.pc.Task? {
      HaltedTask(o, pipe, shifted, ch);
    } else if o.pc.Branch? {
      HaltedBranch(o, ch);
    }
  }

  /** The k-th step is one of output i, which may resume. */
  predicate ResumesAt(states: seq<State>, actions: seq<Action>, i: nat, k: nat) {
    P.StepsAt(states, actions, i, k) && MayResume(states[k].outputs[i].command)
  }

  predicate HaltedAt(states: seq<State>, i: nat, k: nat) {
    k < |states| && i < |states[k].outputs| && Halted(states[k].outputs[i])
  }

  lemma HaltedNext(states: seq<State>, actions: seq<Action>, i: nat, k: nat)
    requires IsRun(states, actions) && k < |actions| && HaltedAt(states, i, k) && !ResumesAt(states, actions, i, k)
    ensures HaltedAt(states, i, k + 1)
  {
    var s := states[k];
    assert Next(s, actions[k], states[k + 1]);
    if actions[k].ByOutput? && actions[k].i == i {
      StaysHalted(s.outputs[i], Pipe(s), s.shifted, actions[k].choice);
    }
  }

  /** Every step of a run keeps output i halted, unless it may resume. */
  ghost predicate KeepsHalted(states: seq<State>, actions: seq<Action>, i: nat) {
    forall k :: 0 <= k < |actions| && HaltedAt(states, i, k) && !ResumesAt(states, actions, i, k)
                ==> HaltedAt(states, i, k + 1)
  }

  lemma RunKeepsHalted(states: seq<State>, actions: seq<Action>, i: nat)
    requires IsRun(states, actions)
    ensures KeepsHalted(states, actions, i)
  {
    forall k | 0 <= k < |actions| && HaltedAt(states, i, k) && !ResumesAt(states, actions, i, k)
      ensures HaltedAt(states, i, k + 1)
    {
      HaltedNext(states, actions, i, k);
    }
  }

  lemma {:induction false} HaltedUntilResumed(states: seq<State>, actions: seq<Action>, i: nat, j: nat, k: nat)
    requires KeepsHalted(states, actions, i) && j <= k <= |actions| && HaltedAt(states, i, j)
    requires forall n :: j <= n < k ==> !ResumesAt(states, actions, i, n)
    ensures HaltedAt(states, i, k)
  {
    if j < k {
      HaltedUntilResumed(states, actions, i, j, k - 1);
    }
  }

  lemma InterruptHaltsAt(states: seq<State>, actions: seq<Action>, i: nat, j: nat)
    requires IsRun(states, actions) && P.StepsAt(states, actions, i, j)
    requires Interrupts(states[j].outputs[i], actions[j].choice)
    ensures HaltedAt(states, i, j + 1)
  {
    var s := states[j];
    assert Next(s, actions[j], states[j + 1]);
    InterruptHalts(s.outputs[i], Pipe(s), s.shifted, actions[j].choice);
  }

  /** After AudioOutputInterrupted, an output plays nothing until it executes OPEN, PAUSE, RELEASE
      or CANCEL. */
  lemma InterruptedUntilResumed(states: seq<State>, actions: seq<Action>, i: nat, j: nat, k: nat)
    requires IsRun(states, actions) && j < k < |states| && P.StepsAt(states, actions, i, j)
    requires Interrupts(states[j].outputs[i], actions[j].choice)
    requires forall n :: j < n < k ==> !ResumesAt(states, actions, i, n)
    ensures i < |states[k].outputs| && !states[k].outputs[i].pc.Loop? && states[k].outputs[i].caughtInterrupted
  {
    InterruptHaltsAt(states, actions, i, j);
    RunKeepsHalted(states, actions, i);
    HaltedUntilResumed(states, actions, i, j + 1, k);
  }
}
