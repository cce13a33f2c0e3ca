/** Every run of the shared pipe keeps the invariant; the theorems follow from it. */
module SharedPipeProofs {
  import opened Prelude
  import opened PipeCursor
  import opened OutputThread
  import opened SharedPipe

  /** The position in the pushed sequence of the chunk to be fetched next. */
  function NextPosition(u: Source, shifted: nat): nat {
    if u.fetched == [] then shifted else RunEnd(u)
  }

  /** Get hands out the chunk at that position, or nothing when it has not been pushed. */
  lemma GetReturnsNext(u: Source, pushed: seq<Address>, shifted: nat)
    requires shifted <= |pushed| && Distinct(pushed[shifted..])
    requires RunOk(u, pushed) && CursorOk(u, shifted) && Steady(u) && !u.current
    ensures var n := NextPosition(u, shifted);
            n <= |pushed| && Got(u.cursor, pushed[shifted..]) == if n < |pushed| then Some(pushed[n]) else None
    ensures var c := Advance(u.cursor, pushed[shifted..]);
            if NextPosition(u, shifted) < |pushed| then c == Cursor(Some(pushed[NextPosition(u, shifted)]), false)
            else c.chunk == u.cursor.chunk && (u.cursor.chunk.Some? ==> c.consumed)
  {
    var pipe := pushed[shifted..];
    if u.cursor.chunk.Some? {
      var k := RunEnd(u) - 1 - shifted;
      assert u.cursor.chunk.value == pipe[k];
      NextOfAt(pipe, k);
    }
  }

  /** Asking the pipe for a chunk continues the run, whichever branch Get takes. */
  lemma GetContinuesRun(u: Source, pushed: seq<Address>, shifted: nat, hasTag: bool)
    requires shifted <= |pushed| && Distinct(pushed[shifted..])
    requires RunOk(u, pushed) && CursorOk(u, shifted) && Steady(u) && !u.current
    ensures var u' := FillGet(u, pushed[shifted..], shifted, hasTag);
            RunOk(u', pushed) && CursorOk(u', shifted) && SourceOk(u') && Steady(u') && u'.open == u.open
  {
    GetReturnsNext(u, pushed, shifted);
  }

  /** What every step of an output thread guarantees, whatever the player is doing. */
  predicate Guarantee(o: Output, o': Output, pushed: seq<Address>, shifted: nat) {
    && o'.allowPlay == o.allowPlay
    && (o'.command == NONE || o'.command == o.command)
    && (o'.open ==> o.open || o.command == OPEN)
    && (o.command == NONE && o'.open ==> SourceGuarantee(o.source, o'.source, pushed, shifted))
    && (o.open && o'.open ==> Grows(o.source, o'.source, pushed, shifted) ||
                              (Cancelled(o'.source) && o.command in {CANCEL, KILL, RELEASE}))
    && (o.command == NONE && o'.open && !o.allowPlay && !o.source.current && o.source.cursor.chunk == None
        ==> o'.source == o.source)
    && (o.command == CANCEL && o'.command == NONE && o'.open ==> Cancelled(o'.source))
    && (o.command == CLOSE && o'.command == NONE ==> !o'.open)
  }

  /** A source never falls back behind a chunk it is done with. */
  predicate SourceGuarantee(u: Source, u': Source, pushed: seq<Address>, shifted: nat) {
    && (DoneWithHead(u, pushed, shifted) ==> DoneWithHead(u', pushed, shifted))
    && (OnConsumedTail(u, pushed, shifted) ==> OnConsumedTail(u', pushed, shifted))
  }

  /** The run is left alone or extended by the chunk at the next position. */
  predicate Grows(u: Source, u': Source, pushed: seq<Address>, shifted: nat) {
    && (u.fetched != [] ==> u'.start == u.start)
    && (u'.fetched == u.fetched ||
        (NextPosition(u, shifted) < |pushed| && u'.fetched == u.fetched + [pushed[NextPosition(u, shifted)]]))
  }

  predicate PipeOk(pushed: seq<Address>, shifted: nat) {
    shifted <= |pushed| && Distinct(pushed[shifted..])
  }

  /** A source that may be asked for the next chunk. */
  predicate Playable(u: Source, pushed: seq<Address>, shifted: nat) {
    u.open && SourceOk(u) && Steady(u) && RunOk(u, pushed) && CursorOk(u, shifted)
  }

  lemma FillGetKeeps(u: Source, pushed: seq<Address>, shifted: nat, hasTag: bool)
    requires PipeOk(pushed, shifted) && Playable(u, pushed, shifted) && !u.current
    ensures var u' := FillGet(u, pushed[shifted..], shifted, hasTag);
            Playable(u', pushed, shifted) && SourceGuarantee(u, u', pushed, shifted) && Grows(u, u', pushed, shifted)
  {
    GetReturnsNext(u, pushed, shifted);
    GetContinuesRun(u, pushed, shifted, hasTag);
  }

  lemma FillDropKeeps(u: Source, pushed: seq<Address>, shifted: nat)
    requires Playable(u, pushed, shifted)
    ensures Playable(FillDrop(u), pushed, shifted) && SourceGuarantee(u, FillDrop(u), pushed, shifted)
    ensures Grows(u, FillDrop(u), pushed, shifted)
    ensures FillDrop(u).cursor.chunk == u.cursor.chunk
  {
  }

  /** The thread holds the mutex inside InternalPlay. */
  predicate PlayPre(o: Output, pushed: seq<Address>, shifted: nat) {
    o.open && !o.pc.Branch? && CommandsOk(o) && Playable(o.source, pushed, shifted) &&
    (o.allowPlay || o.source.cursor.chunk.Some?)
  }

  predicate Kept(o: Output, o': Output, pushed: seq<Address>, shifted: nat) {
    OutputOk(o', pushed, shifted, false) && Guarantee(o, o', pushed, shifted)
  }

  /** Releasing the mutex with another source in hand, inside or after the play loop. */
  lemma ReleaseKeeps(o: Output, u: Source, pc: Pc, pushed: seq<Address>, shifted: nat)
    requires PlayPre(o, pushed, shifted) && Playable(u, pushed, shifted)
    requires SourceGuarantee(o.source, u, pushed, shifted) && Grows(o.source, u, pushed, shifted)
    requires pc.Loop? ==> u.current
    requires pc.Loop? || pc == Task || pc == Leaving
    ensures Kept(o, o.(source := u, pc := pc), pushed, shifted)
  {
  }

  /** Both halves of Fill together. */
  lemma FillKeeps(u: Source, pushed: seq<Address>, shifted: nat, hasTag: bool)
    requires PipeOk(pushed, shifted) && Playable(u, pushed, shifted)
    ensures Playable(FillDrop(u), pushed, shifted) && SourceGuarantee(u, FillDrop(u), pushed, shifted)
    ensures Grows(u, FillDrop(u), pushed, shifted)
    ensures FillDrop(u).cursor.chunk == u.cursor.chunk
    ensures !FillDrop(u).current ==>
              var u' := FillGet(FillDrop(u), pushed[shifted..], shifted, hasTag);
              Playable(u', pushed, shifted) && SourceGuarantee(u, u', pushed, shifted) && Grows(u, u', pushed, shifted)
  {
    FillDropKeeps(u, pushed, shifted);
    if !FillDrop(u).current {
      FillGetKeeps(FillDrop(u), pushed, shifted, hasTag);
    }
  }

  lemma RefillKeeps(o: Output, pushed: seq<Address>, shifted: nat, ch: Choice)
    requires PipeOk(pushed, shifted) && PlayPre(o, pushed, shifted)
    ensures Kept(o, Refill(o, pushed[shifted..], shifted, ch), pushed, shifted)
  {
    FillKeeps(o.source, pushed, shifted, ch.hasTag);
    var u := FillDrop(o.source);
    if u.current {
      ReleaseKeeps(o, u, Task, pushed, shifted);
    } else {
      var u' := FillGet(u, pushed[shifted..], shifted, ch.hasTag);
      ReleaseKeeps(o, u', if u'.current then Loop(Filtering(true)) else Leaving, pushed, shifted);
    }
  }

  lemma PlayDataKeeps(o: Output, pushed: seq<Address>, shifted: nat, ch: Choice)
    requires PipeOk(pushed, shifted) && PlayPre(o, pushed, shifted)
    requires o.source.pendingData ==> o.source.current
    ensures Kept(o, PlayData(o, pushed[shifted..], shifted, ch), pushed, shifted)
  {
    if !(o.command == NONE && o.source.pendingData) {
      RefillKeeps(o, pushed, shifted, ch);
    }
  }

  lemma PlayTagKeeps(o: Output, pushed: seq<Address>, shifted: nat, ch: Choice)
    requires PipeOk(pushed, shifted) && PlayPre(o, pushed, shifted) && o.source.current
    ensures Kept(o, PlayTag(o, pushed[shifted..], shifted, ch), pushed, shifted)
  {
    if !(o.sendTags && o.source.pendingTag) {
      PlayDataKeeps(o.(source := o.source.(pendingTag := false)), pushed, shifted, ch);
    }
  }

  lemma LoopTopKeeps(o: Output, pushed: seq<Address>, shifted: nat, ch: Choice)
    requires PipeOk(pushed, shifted) && PlayPre(o, pushed, shifted) && o.source.current
    ensures Kept(o, LoopTop(o, pushed[shifted..], shifted, ch), pushed, shifted)
  {
    if o.command == NONE && !ch.notify {
      PlayTagKeeps(o, pushed, shifted, ch);
    }
  }

  lemma InternalPlayKeeps(o: Output, pushed: seq<Address>, shifted: nat, ch: Choice)
    requires PipeOk(pushed, shifted) && PlayPre(o, pushed, shifted)
    ensures Kept(o, InternalPlay(o, pushed[shifted..], shifted, ch), pushed, shifted)
  {
    FillKeeps(o.source, pushed, shifted, ch.hasTag);
    var u := FillDrop(o.source);
    if u.current {
      LoopTopKeeps(o.(source := u), pushed, shifted, ch);
    } else {
      var u' := FillGet(u, pushed[shifted..], shifted, ch.hasTag);
      ReleaseKeeps(o, u', if u'.current then Loop(Filtering(false)) else Task, pushed, shifted);
    }
  }

  // --- commands ---------------------------------------------------------------------

  /** The thread is about to execute, or is executing, the pending command. */
  predicate Taken(o: Output, pushed: seq<Address>, shifted: nat) {
    o.command != NONE &&
    OutputOk(o.(pc := Task, counts := o.counts.(taken := o.counts.finished)), pushed, shifted, false) &&
    o.counts.taken == o.counts.finished + 1
  }

  lemma OpenSourceKeeps(o: Output, pushed: seq<Address>, shifted: nat, ch: Choice)
    requires Taken(o, pushed, shifted) && o.command == OPEN
    ensures Kept(o, OpenSource(o, ch), pushed, shifted)
  {
  }

  lemma BeginDisableKeeps(o: Output, pushed: seq<Address>, shifted: nat)
    requires Taken(o, pushed, shifted) && (o.command == DISABLE || o.command == KILL)
    ensures Kept(o, BeginDisable(o), pushed, shifted)
  {
  }

  /** CANCEL, and RELEASE of an output that is always on, forget the source's cursor. */
  lemma ExecuteCancelKeeps(o: Output, pushed: seq<Address>, shifted: nat, ch: Choice)
    requires Taken(o, pushed, shifted) && (o.command == CANCEL || o.command == RELEASE)
    ensures Kept(o, Execute(o, ch), pushed, shifted)
  {
  }

  lemma ExecuteOtherKeeps(o: Output, pushed: seq<Address>, shifted: nat, ch: Choice)
    requires Taken(o, pushed, shifted) && o.command in {ENABLE, CLOSE, PAUSE, DRAIN, NONE}
    ensures Kept(o, Execute(o, ch), pushed, shifted)
  {
  }

  /** Each branch of the switch. */
  lemma ExecuteKeeps(o: Output, pushed: seq<Address>, shifted: nat, ch: Choice)
    requires Taken(o, pushed, shifted)
    ensures Kept(o, Execute(o, ch), pushed, shifted)
  {
    if o.command == OPEN {
      if o.reallyEnabled { OpenSourceKeeps(o, pushed, shifted, ch); }
    } else if o.command == DISABLE || o.command == KILL {
      BeginDisableKeeps(o, pushed, shifted);
    } else if o.command == CANCEL || o.command == RELEASE {
      ExecuteCancelKeeps(o, pushed, shifted, ch);
    } else {
      ExecuteOtherKeeps(o, pushed, shifted, ch);
    }
  }

  lemma OpenStepKeeps(o: Output, pushed: seq<Address>, shifted: nat, ch: Choice)
    requires OutputOk(o, pushed, shifted, false) && o.pc.Branch? && InOpen(o.pc.stage)
    ensures Kept(o, BranchStep(o, o.pc.stage, ch), pushed, shifted)
  {
  }

  lemma CloseStepKeeps(o: Output, pushed: seq<Address>, shifted: nat, ch: Choice)
    requires OutputOk(o, pushed, shifted, false) && o.pc.Branch?
    requires o.pc.stage.ClosingDevice? || o.pc.stage.Disabling?
    ensures Kept(o, BranchStep(o, o.pc.stage, ch), pushed, shifted)
  {
  }

  /** Each step inside a branch. */
  lemma BranchStepKeeps(o: Output, pushed: seq<Address>, shifted: nat, ch: Choice)
    requires OutputOk(o, pushed, shifted, false) && o.pc.Branch?
    ensures Kept(o, BranchStep(o, o.pc.stage, ch), pushed, shifted)
  {
    if InOpen(o.pc.stage) {
      OpenStepKeeps(o, pushed, shifted, ch);
    } else if o.pc.stage.ClosingDevice? || o.pc.stage.Disabling? {
      CloseStepKeeps(o, pushed, shifted, ch);
    } else if o.pc.stage.Enabling? && o.command == OPEN && !ch.failed {
      OpenSourceKeeps(o.(reallyEnabled := true), pushed, shifted, ch);
    }
  }

  // --- the play loop ----------------------------------------------------------------

  lemma PlayedKeeps(o: Output, pushed: seq<Address>, shifted: nat, ch: Choice)
    requires PipeOk(pushed, shifted) && OutputOk(o, pushed, shifted, false) && o.pc == Loop(PlayingData)
    ensures Kept(o, LoopStep(o, PlayingData, pushed[shifted..], shifted, ch), pushed, shifted)
  {
    if !ch.interrupted && !ch.failed {
      var u := if ch.drained then DropCurrentChunk(o.source.(pendingData := false)) else o.source;
      PlayDataKeeps(o.(source := u), pushed, shifted, ch);
    }
  }

  lemma FilteredKeeps(o: Output, pushed: seq<Address>, shifted: nat, ch: Choice)
    requires PipeOk(pushed, shifted) && OutputOk(o, pushed, shifted, false)
    requires o.pc.Loop? && o.pc.loop.Filtering?
    ensures Kept(o, LoopStep(o, o.pc.loop, pushed[shifted..], shifted, ch), pushed, shifted)
  {
    if !ch.failed {
      LoopTopKeeps(o.(source := o.source.(pendingData := ch.hasData)), pushed, shifted, ch);
    }
  }

  /** Each step inside InternalPlay(). */
  lemma LoopStepKeeps(o: Output, pushed: seq<Address>, shifted: nat, ch: Choice)
    requires PipeOk(pushed, shifted) && OutputOk(o, pushed, shifted, false) && o.pc.Loop?
    ensures Kept(o, LoopStep(o, o.pc.loop, pushed[shifted..], shifted, ch), pushed, shifted)
  {
    match o.pc.loop
    case Filtering(inLoop) => FilteredKeeps(o, pushed, shifted, ch);
    case Notifying => PlayTagKeeps(o, pushed, shifted, ch);
    case SendingTag => if !ch.interrupted { PlayDataKeeps(o, pushed, shifted, ch); }
    case Delaying => if o.command != NONE { RefillKeeps(o, pushed, shifted, ch); }
    case PlayingData => PlayedKeeps(o, pushed, shifted, ch);
  }

  lemma QuietStepKeeps(o: Output, pushed: seq<Address>, shifted: nat, ch: Choice)
    requires OutputOk(o, pushed, shifted, false) && !o.pc.Loop? && !o.pc.Branch? && !o.pc.Task?
    ensures Kept(o, QuietStep(o, ch), pushed, shifted)
  {
    match o.pc
    case Closing(_) =>
    case Paused =>
    case _ =>
  }

  lemma TaskStepKeeps(o: Output, pushed: seq<Address>, shifted: nat, ch: Choice)
    requires PipeOk(pushed, shifted) && OutputOk(o, pushed, shifted, false) && o.pc.Task?
    ensures Kept(o, TaskStep(o, pushed[shifted..], shifted, ch), pushed, shifted)
  {
    if o.command != NONE {
      ExecuteKeeps(o.(counts := o.counts.(taken := o.counts.taken + 1)), pushed, shifted, ch);
    } else if o.open && o.allowPlay && !o.caughtInterrupted {
      InternalPlayKeeps(o, pushed, shifted, ch);
    }
  }

  /** One step of an output thread, outside of the tail-clearing window. */
  lemma StepKeeps(o: Output, pushed: seq<Address>, shifted: nat, ch: Choice)
    requires PipeOk(pushed, shifted) && OutputOk(o, pushed, shifted, false)
    ensures Kept(o, Step(o, pushed[shifted..], shifted, ch), pushed, shifted)
  {
    if o.pc.Task? {
      TaskStepKeeps(o, pushed, shifted, ch);
    } else if o.pc.Loop? {
      LoopStepKeeps(o, pushed, shifted, ch);
    } else if o.pc.Branch? {
      BranchStepKeeps(o, pushed, shifted, ch);
    } else {
      QuietStepKeeps(o, pushed, shifted, ch);
    }
  }

  /** While the tail is being cleared, a closed gate keeps the thread off the pipe. */
  lemma StepKeepsCleared(o: Output, pushed: seq<Address>, shifted: nat, ch: Choice)
    requires PipeOk(pushed, shifted) && OutputOk(o, pushed, shifted, true) && o.command == NONE
    ensures var o' := Step(o, pushed[shifted..], shifted, ch);
            OutputOk(o', pushed, shifted, true) && Guarantee(o, o', pushed, shifted)
  {
    if !Live(o) {
      StepKeeps(o, pushed, shifted, ch);
    }
  }

  /** What the player knows about an output survives the output's own steps. */
  lemma PhaseKept(player: PlayerPc, i: nat, o: Output, o': Output, pushed: seq<Address>, shifted: nat)
    requires SourceOk(o.source) && PhaseOk(player, i, o, pushed, shifted) && Guarantee(o, o', pushed, shifted)
    ensures PhaseOk(player, i, o', pushed, shifted)
  {
  }

  /** Any output thread may step at any time. */
  lemma OutputStepKeepsInv(s: State, i: nat, ch: Choice)
    requires Inv(s) && i < |s.outputs|
    ensures Inv(OutputStep(s, i, ch))
  {
    var o := s.outputs[i];
    var o' := Step(o, Pipe(s), s.shifted, ch);
    if Cleared(s.player, i) {
      StepKeepsCleared(o, s.pushed, s.shifted, ch);
    } else {
      StepKeeps(o, s.pushed, s.shifted, ch);
    }
    PhaseKept(s.player, i, o, o', s.pushed, s.shifted);
  }

  // --- the player ---------------------------------------------------------------------

  predicate OkAt(s: State, i: nat)
    requires i < |s.outputs|
  {
    OutputOk(s.outputs[i], s.pushed, s.shifted, Cleared(s.player, i)) &&
    PhaseOk(s.player, i, s.outputs[i], s.pushed, s.shifted)
  }

  lemma PushKeeps(s: State, chunk: Address)
    requires Inv(s) && s.player == Idle && chunk !in Pipe(s)
    ensures Inv(s.(pushed := s.pushed + [chunk]))
  {
    var s' := s.(pushed := s.pushed + [chunk]);
    assert Pipe(s') == Pipe(s) + [chunk];
    forall i | 0 <= i < |s.outputs| ensures OkAt(s', i) {
      assert OkAt(s, i);
    }
  }

  /** Steps that only move the player on, using what it has just seen. */
  lemma MoveKeeps(s: State, next: PlayerPc)
    requires Inv(s) && GlobalOk(s.(player := next))
    requires forall i :: 0 <= i < |s.outputs| ==>
                           Cleared(next, i) == Cleared(s.player, i) &&
                           (PhaseOk(s.player, i, s.outputs[i], s.pushed, s.shifted) ==>
                              PhaseOk(next, i, s.outputs[i], s.pushed, s.shifted))
    ensures Inv(s.(player := next))
  {
    forall i | 0 <= i < |s.outputs| ensures OkAt(s.(player := next), i) {
      assert OkAt(s, i);
    }
  }

  /** Steps that change one output: the others stay as they are. */
  lemma SetKeeps(s: State, k: nat, o: Output, next: PlayerPc)
    requires Inv(s) && k < |s.outputs| && GlobalOk(s.(player := next))
    requires OutputOk(o, s.pushed, s.shifted, Cleared(next, k)) && PhaseOk(next, k, o, s.pushed, s.shifted)
    requires forall i :: 0 <= i < |s.outputs| && i != k ==>
                           Cleared(next, i) == Cleared(s.player, i) &&
                           (PhaseOk(s.player, i, s.outputs[i], s.pushed, s.shifted) ==>
                              PhaseOk(next, i, s.outputs[i], s.pushed, s.shifted))
    ensures Inv(SetOutput(s, k, o, next))
  {
    var s' := SetOutput(s, k, o, next);
    forall i | 0 <= i < |s.outputs| ensures OkAt(s', i) {
      assert OkAt(s, i);
    }
  }

  /** Steps that take the head out of the pipe: allowed once nobody needs it. */
  lemma ShiftKeeps(s: State, shifted: nat, next: PlayerPc)
    requires Inv(s) && s.shifted <= shifted <= |s.pushed|
    requires GlobalOk(s.(shifted := shifted, player := next))
    requires forall i :: 0 <= i < |s.outputs| ==>
                           OutputOk(s.outputs[i], s.pushed, shifted, Cleared(next, i)) &&
                           PhaseOk(next, i, s.outputs[i], s.pushed, shifted)
    ensures Inv(s.(shifted := shifted, player := next))
  {
  }

  lemma IssueKeeps(s: State, ch: PlayerChoice)
    requires Inv(s) && (s.player.Issuing? || s.player.Waiting?)
    ensures Inv(PlayerStep(s, ch))
  {
    if s.player.Waiting? {
      var i := s.player.i;
      if i == |s.outputs| {
        MoveKeeps(s, if s.player.purpose == ForCancel then Clearing else Idle);
      } else if i < |s.outputs| && s.outputs[i].command == NONE {
        MoveKeeps(s, Waiting(i + 1, s.player.purpose));
      }
    } else if ch.Send? && ch.output < |s.outputs| {
      if s.outputs[ch.output].command == NONE && ch.command !in {NONE, CANCEL} {
        assert OkAt(s, ch.output);
        SetKeeps(s, ch.output, CommandAsync(s.outputs[ch.output], ch.command), Issuing);
      }
    } else if ch.EndCommands? {
      MoveKeeps(s, Waiting(0, ForCommands));
    }
  }

  /** Cancel(): every open output is told to cancel before the pipe is cleared. */
  lemma CancelKeeps(s: State, ch: PlayerChoice)
    requires Inv(s) && (s.player.Cancelling? || s.player.Clearing?)
    ensures Inv(PlayerStep(s, ch))
  {
    if s.player.Clearing? {
      if Pipe(s) == [] {
        MoveKeeps(s, Allowing(0));
      } else {
        assert Pipe(s.(shifted := s.shifted + 1)) == Pipe(s)[1..];
        ShiftKeeps(s, s.shifted + 1, Clearing);
      }
    } else if s.player.i < |s.outputs| {
      assert OkAt(s, s.player.i);
      SetKeeps(s, s.player.i, CancelAsync(s.outputs[s.player.i]), Cancelling(s.player.i + 1));
    } else {
      MoveKeeps(s, Waiting(0, ForCancel));
    }
  }

  /** An output reports the head consumed exactly when it is done with it. */
  lemma ConsumedMeansDone(o: Output, pushed: seq<Address>, shifted: nat)
    requires shifted < |pushed| && PipeOk(pushed, shifted)
    requires o.open && OutputOk(o, pushed, shifted, false)
    ensures ChunkConsumed(o, pushed[shifted..], pushed[shifted]) <==> DoneWithHead(o.source, pushed, shifted)
  {
    if o.source.cursor.chunk.Some? {
      var pipe := pushed[shifted..];
      var k := RunEnd(o.source) - 1 - shifted;
      assert o.source.cursor.chunk.value == pipe[k];
      ConsumedByPosition(o.source.cursor, pipe, k);
    }
  }

  /** CheckPipe(), while it asks the outputs and drops chunks that have a successor. */
  lemma ScanKeeps(s: State, ch: PlayerChoice)
    requires Inv(s) && s.player.Scanning?
    ensures Inv(PlayerStep(s, ch))
  {
    var pipe := Pipe(s);
    if s.player.i < |s.outputs| {
      var o := s.outputs[s.player.i];
      assert OkAt(s, s.player.i);
      if o.open { ConsumedMeansDone(o, s.pushed, s.shifted); }
      if ChunkConsumed(o, pipe, pipe[0]) {
        MoveKeeps(s, Scanning(s.player.i + 1));
      } else {
        MoveKeeps(s, Idle);
      }
    } else {
      NextOfAt(pipe, 0);
      if NextOf(pipe, pipe[0]).None? {
        MoveKeeps(s, ClearingTail(0));
      } else {
        assert Pipe(s.(shifted := s.shifted + 1)) == pipe[1..];
        forall i | 0 <= i < |s.outputs|
          ensures OutputOk(s.outputs[i], s.pushed, s.shifted + 1, false)
        {
          assert OkAt(s, i);
        }
        ShiftKeeps(s, s.shifted + 1, Scanning(0));
      }
    }
  }

  /** CheckPipe(), once the last chunk has been consumed by everybody. */
  lemma TailKeeps(s: State, ch: PlayerChoice)
    requires Inv(s) && (s.player.ClearingTail? || s.player.ShiftingTail? || s.player.Allowing?)
    ensures Inv(PlayerStep(s, ch))
  {
    if s.player.ShiftingTail? {
      assert Pipe(s.(shifted := s.shifted + 1)) == [];
      forall i | 0 <= i < |s.outputs|
        ensures OutputOk(s.outputs[i], s.pushed, s.shifted + 1, false) &&
                PhaseOk(Allowing(0), i, s.outputs[i], s.pushed, s.shifted + 1)
      {
        assert OkAt(s, i);
      }
      ShiftKeeps(s, s.shifted + 1, Allowing(0));
    } else if s.player.i < |s.outputs| {
      assert OkAt(s, s.player.i);
      var o := s.outputs[s.player.i];
      if s.player.Allowing? {
        SetKeeps(s, s.player.i, o.(allowPlay := true), Allowing(s.player.i + 1));
      } else {
        SetKeeps(s, s.player.i, ClearTailChunk(o), ClearingTail(s.player.i + 1));
      }
    } else if s.player.Allowing? {
      MoveKeeps(s, Idle);
    } else {
      MoveKeeps(s, ShiftingTail);
    }
  }

  /** Close(): the pipe goes away after every output has been closed. */
  lemma CloseKeeps(s: State, ch: PlayerChoice)
    requires Inv(s) && (s.player.ClosingAll? || s.player.ClosingWait?)
    ensures Inv(PlayerStep(s, ch))
  {
    var i := s.player.i;
    if s.player.ClosingWait? {
      if s.outputs[i].command == NONE { MoveKeeps(s, ClosingAll(i + 1)); }
    } else if i < |s.outputs| {
      if s.outputs[i].open {
        assert OkAt(s, i);
        SetKeeps(s, i, CommandAsync(s.outputs[i], CLOSE), ClosingWait(i));
      } else {
        MoveKeeps(s, ClosingAll(i + 1));
      }
    } else {
      forall k | 0 <= k < |s.outputs|
        ensures OutputOk(s.outputs[k], s.pushed, |s.pushed|, false) &&
                PhaseOk(Idle, k, s.outputs[k], s.pushed, |s.pushed|)
      {
        assert OkAt(s, k);
      }
      ShiftKeeps(s, |s.pushed|, Idle);
    }
  }

  lemma IdleKeeps(s: State, ch: PlayerChoice)
    requires Inv(s) && s.player.Idle?
    ensures Inv(PlayerStep(s, ch))
  {
    match ch
    case Push(chunk) => if chunk !in Pipe(s) { PushKeeps(s, chunk); }
    case BeginCommands => MoveKeeps(s, Issuing);
    case BeginCancel => MoveKeeps(s, Cancelling(0));
    case BeginCheckPipe => if Pipe(s) != [] { MoveKeeps(s, Scanning(0)); }
    case BeginCloseAll => MoveKeeps(s, ClosingAll(0));
    case _ =>
  }

  /** Every step of the system keeps the invariant. */
  lemma StepKeepsInv(s: State, a: Action, s': State)
    requires Inv(s) && Next(s, a, s')
    ensures Inv(s')
  {
    match a
    case ByOutput(i, ch) => OutputStepKeepsInv(s, i, ch);
    case ByPlayer(ch) =>
      if s.player.Idle? { IdleKeeps(s, ch); }
      else if s.player.Issuing? || s.player.Waiting? { IssueKeeps(s, ch); }
      else if s.player.Cancelling? || s.player.Clearing? { CancelKeeps(s, ch); }
      else if s.player.Scanning? { ScanKeeps(s, ch); }
      else if s.player.ClosingAll? || s.player.ClosingWait? { CloseKeeps(s, ch); }
      else { TailKeeps(s, ch); }
  }

  lemma {:induction false} RunKeepsInv(states: seq<State>, actions: seq<Action>, k: nat)
    requires IsRun(states, actions) && k < |states|
    ensures Inv(states[k])
  {
    if k > 0 {
      RunKeepsInv(states, actions, k - 1);
      StepKeepsInv(states[k - 1], actions[k - 1], states[k]);
    }
  }
}
