/**
 What holds in every run of the decoder protocol.
 */
module DecoderTheorems {
  import opened Prelude
  import opened DecoderProtocol

  // --- what every step keeps -------------------------------------------------------------

  /** A plugin has been called, and its bridge exists. */
  predicate Alive(pc: Pc) { pc != Top && pc != Exited }

  predicate StateOk(s: State) {
    if Alive(s.pc) then s.dc.state == Starting || s.dc.state == Decoding else IsIdle(s.dc) && s.bridge == NO_BRIDGE
  }

  /** The flags of the bridge agree with what the plugin does. */
  predicate SeekOk(s: State) {
    && (s.bridge.seeking ==> s.plugin.inSeek && s.dc.command == SeekCommand && !s.bridge.initialRunning)
    && (s.plugin.inSeek ==> s.pc == InPlugin && (s.bridge.initialRunning || s.bridge.seeking))
    && (s.pc == InPlugin && s.plugin.seen == SeekCommand ==> s.bridge.initialRunning || s.dc.command == SeekCommand)
    && (s.dc.state == Starting ==> s.plugin.seen != SeekCommand && s.dc.command != SeekCommand)
  }

  /** Chunks exist only after the initial seek. */
  predicate ChunkOk(s: State) {
    && (s.bridge.current.Some? || (Alive(s.pc) && s.pipe != []) ==> s.bridge.hadChunk)
    && (s.bridge.hadChunk ==> !s.bridge.initialPending && !s.bridge.initialRunning && s.dc.state == Decoding)
    && (s.pc == InSubmit ==> !s.bridge.initialPending && !s.bridge.initialRunning && s.dc.state == Decoding)
    && (s.bridge.initialRunning ==> s.dc.state == Decoding && !s.bridge.initialPending)
    && (s.pc.Finish? ==> s.bridge.current.None?)
  }

  /** The single commanding thread waits for its command. */
  predicate CommandOk(s: State) {
    && (s.dc.command == StartCommand ==> s.player == InStart && s.pc == Top && s.pipe == [] && s.dc.state == Stopped)
    && (s.dc.command == SeekCommand ==> s.player == InSeek && !s.dc.seekError && s.dc.state != Failed)
    && (s.dc.command == StopCommand ==> s.player == InStop || s.player == InQuit)
    && (s.player == InStop && s.dc.command == NoCommand ==> !Alive(s.pc))
    && (s.player == Free || s.player == InSeekStartup || s.player == Quitting ==> s.dc.command == NoCommand)
    && (s.dc.quit <==> s.player == Quitting || s.player == InQuit)
    && (s.pc == Exited ==> s.dc.quit)
    && s.player != InStopAgain
  }

  predicate Inv(s: State) { StateOk(s) && SeekOk(s) && ChunkOk(s) && CommandOk(s) }

  predicate OfPlayer(a: Action) { a.Start? || a.Stop? || a.Seek? || a.SetQuit? || a.PostStop? || a.Resume? || a.Shift? }

  predicate OfThread(a: Action) { a.Run? || a.FlushAtEnd? || a.FinishRun? }

  predicate OfSeek(a: Action) {
    a.GetCommand? || a.GetSeekTime? || a.CommandFinished? || a.SeekError? || a.SubmitData? || a.SubmitTag?
  }

  lemma PlayerKeepsInv(s: State, a: Action)
    requires Inv(s) && Enabled(s, a) && OfPlayer(a)
    ensures Inv(Step(s, a))
  {
  }

  lemma BeginKeepsInv(s: State, badPath: bool)
    requires Inv(s) && s.pc == Top && (s.dc.command == StartCommand || s.dc.command == SeekCommand)
    ensures Inv(Step(s, Run(badPath)))
  {
  }

  lemma RunKeepsInv(s: State, badPath: bool)
    requires Inv(s) && s.pc == Top
    ensures Inv(Step(s, Run(badPath)))
  {
    if s.dc.command == StartCommand || s.dc.command == SeekCommand {
      BeginKeepsInv(s, badPath);
    }
  }

  lemma FlushAtEndKeepsInv(s: State, empty: bool)
    requires Inv(s) && s.pc.FlushLast?
    ensures Inv(Step(s, FlushAtEnd(empty)))
  {
  }

  lemma FinishRunKeepsInv(s: State)
    requires Inv(s) && s.pc.Finish?
    ensures Inv(Step(s, FinishRun))
  {
  }

  lemma SeekKeepsInv(s: State, a: Action)
    requires Inv(s) && Enabled(s, a) && OfSeek(a)
    ensures Inv(Step(s, a))
  {
  }

  lemma PluginKeepsInv(s: State, a: Action)
    requires Inv(s) && Enabled(s, a) && !OfPlayer(a) && !OfThread(a) && !OfSeek(a)
    ensures Inv(Step(s, a))
  {
  }

  lemma StepKeepsInv(s: State, a: Action)
    requires Inv(s) && Enabled(s, a)
    ensures Inv(Step(s, a))
  {
    if OfPlayer(a) {
      PlayerKeepsInv(s, a);
    } else if a.Run? {
      RunKeepsInv(s, a.badPath);
    } else if a.FlushAtEnd? {
      FlushAtEndKeepsInv(s, a.empty);
    } else if a.FinishRun? {
      FinishRunKeepsInv(s);
    } else if OfSeek(a) {
      SeekKeepsInv(s, a);
    } else {
      PluginKeepsInv(s, a);
    }
  }

  lemma {:induction false} ReachableInv(states: seq<State>, actions: seq<Action>, k: nat)
    requires IsRun(states, actions) && k < |states|
    ensures Inv(states[k])
  {
    if k > 0 {
      ReachableInv(states, actions, k - 1);
      StepKeepsInv(states[k - 1], actions[k - 1]);
    }
  }

  // --- the theorems ----------------------------------------------------------------------

  /** The top of RunThread() always sees STOP or ERROR. */
  lemma TopIsIdle(states: seq<State>, actions: seq<Action>, k: nat)
    requires IsRun(states, actions) && k < |states| && states[k].pc == Top
    ensures IsIdle(states[k].dc)
  {
    ReachableInv(states, actions, k);
  }

  /** Every command that the top of RunThread() finds is acknowledged there: START and SEEK begin a
      song, or fail because of its path. */
  lemma TopAnswersCommands(states: seq<State>, actions: seq<Action>, k: nat)
    requires IsRun(states, actions) && k < |actions| && actions[k].Run?
    ensures states[k + 1].dc.command == NoCommand
    ensures states[k].dc.command == StartCommand || states[k].dc.command == SeekCommand ==>
              && states[k + 1].dc.state == (if actions[k].badPath then Failed else Starting)
              && (!actions[k].badPath ==> states[k + 1].pc == InPlugin)
  {
    ReachableInv(states, actions, k);
  }

  /** This action is the return of DecoderControl::Stop(). */
  predicate StopReturns(s: State, a: Action, s': State) {
    s'.player == Free && (a == Stop || (a == Resume && (s.player == InStop || s.player == InStopAgain)))
  }

  /** When Stop() returns, the decoder is idle and no command is pending. */
  lemma StoppedMeansIdle(states: seq<State>, actions: seq<Action>, k: nat)
    requires IsRun(states, actions) && k < |actions| && StopReturns(states[k], actions[k], states[k + 1])
    ensures IsIdle(states[k + 1].dc) && states[k + 1].dc.command == NoCommand
  {
    ReachableInv(states, actions, k);
    ReachableInv(states, actions, k + 1);
  }

  /** The decoder thread ends in this step. */
  predicate Exits(s: State, s': State) { s.pc != Exited && s'.pc == Exited }

  lemma ExitStep(s: State, a: Action)
    requires Inv(s) && Enabled(s, a) && Exits(s, Step(s, a))
    ensures var dc := Step(s, a).dc; dc.quit && dc.command == NoCommand && IsIdle(dc)
  {
    StepKeepsInv(s, a);
  }

  /** The thread ends only after Quit() has set its flag, idle and with no command pending. */
  lemma ExitsOnlyByQuit(states: seq<State>, actions: seq<Action>, k: nat)
    requires IsRun(states, actions) && k < |actions| && Exits(states[k], states[k + 1])
    ensures states[k + 1].dc.quit && states[k + 1].dc.command == NoCommand && IsIdle(states[k + 1].dc)
  {
    ReachableInv(states, actions, k);
    ExitStep(states[k], actions[k]);
  }

  /** What can be pending once the thread has ended in state s0: the STOP of Quit(), exactly if
      only the first half of Quit() had happened then, and the second has happened since. */
  predicate PendingSince(s0: State, s: State) {
    && s.pc == Exited && (s.player == Quitting || s.player == InQuit) && (s0.player == Quitting || s0.player == InQuit)
    && (s0.player == InQuit ==> s.player == InQuit)
    && (s.dc.command != NoCommand <==> s0.player == Quitting && s.player == InQuit)
    && (s.dc.command == NoCommand || s.dc.command == StopCommand)
  }

  lemma PendingSinceStep(s0: State, s: State, a: Action)
    requires PendingSince(s0, s) && Enabled(s, a)
    ensures PendingSince(s0, Step(s, a))
  {
  }

  lemma PendingSinceNext(states: seq<State>, actions: seq<Action>, s0: State, k: nat)
    requires IsRun(states, actions) && k < |actions|
    ensures PendingSince(s0, states[k]) ==> PendingSince(s0, states[k + 1])
  {
    if PendingSince(s0, states[k]) {
      PendingSinceStep(s0, states[k], actions[k]);
    }
  }

  /** A command is pending after the thread has ended exactly if the thread ended between the
      two halves of Quit(), and the second half has sent its STOP. */
  lemma PendingAfterExit(states: seq<State>, actions: seq<Action>, j: nat, k: nat)
    requires IsRun(states, actions) && j < k < |states| && Exits(states[j], states[j + 1])
    ensures states[k].dc.command != NoCommand <==> states[j + 1].player == Quitting && states[k].player == InQuit
  {
    ReachableInv(states, actions, j + 1);
    ExitsOnlyByQuit(states, actions, j);
    var s0 := states[j + 1];
    var flags := seq(|states|, i requires 0 <= i < |states| => PendingSince(s0, states[i]));
    forall i | j + 1 <= i < k && flags[i] ensures flags[i + 1] {
      PendingSinceNext(states, actions, s0, i);
    }
    Persists(flags, j + 1, k);
  }

  /** Such a run: the thread ends before the STOP is sent. */
  lemma StopComesTooLate() returns (states: seq<State>, actions: seq<Action>)
    ensures IsRun(states, actions)
    ensures states[|states| - 1].pc == Exited && states[|states| - 1].dc.command == StopCommand
  {
    var quitting := BEGIN.(dc := BEGIN.dc.(quit := true), player := Quitting);
    states, actions := ExtendRun([BEGIN], [], SetQuit, quitting);
    states, actions := ExtendRun(states, actions, Run(false), quitting.(pc := Exited));
    states, actions := ExtendRun(states, actions, PostStop,
                                 quitting.(dc := quitting.dc.(command := StopCommand), pc := Exited, player := InQuit));
  }

  /** Both states belong to the same run of a plugin, and the same bridge. */
  predicate SameBridge(states: seq<State>, j: nat, k: nat)
    requires j <= k < |states|
  {
    forall i :: j <= i <= k ==> Alive(states[i].pc)
  }

  /** From one state of a run to the next, within one bridge. */
  lemma HadChunkNext(states: seq<State>, actions: seq<Action>, k: nat)
    requires IsRun(states, actions) && k < |actions|
    ensures Alive(states[k].pc) && Alive(states[k + 1].pc) && states[k].bridge.hadChunk ==>
            states[k + 1].bridge.hadChunk
  {
    assert Enabled(states[k], actions[k]) && states[k + 1] == Step(states[k], actions[k]);
  }

  /** A property that every step from j to k keeps. */
  lemma {:induction false} Persists(flags: seq<bool>, j: nat, k: nat)
    requires j <= k < |flags| && flags[j] && forall i :: j <= i < k && flags[i] ==> flags[i + 1]
    ensures flags[k]
  {
    if j < k {
      Persists(flags, j, k - 1);
    }
  }

  lemma HadChunkStays(states: seq<State>, actions: seq<Action>, j: nat, k: nat)
    requires IsRun(states, actions) && j <= k < |states| && SameBridge(states, j, k) && states[j].bridge.hadChunk
    ensures states[k].bridge.hadChunk
  {
    var flags := seq(|states|, i requires 0 <= i < |states| => states[i].bridge.hadChunk);
    forall i | j <= i < k && flags[i] ensures flags[i + 1] {
      HadChunkNext(states, actions, i);
    }
    Persists(flags, j, k);
  }

  /** Once there is any chunk, no initial seek is pending or running, as long as the bridge
      lives. */
  lemma ChunkEndsInitialSeek(states: seq<State>, actions: seq<Action>, j: nat, k: nat)
    requires IsRun(states, actions) && j <= k < |states| && SameBridge(states, j, k)
    requires states[j].bridge.current.Some? || states[j].pipe != []
    ensures !states[k].bridge.initialPending && !states[k].bridge.initialRunning
  {
    ReachableInv(states, actions, j);
    ReachableInv(states, actions, k);
    HadChunkStays(states, actions, j, k);
  }

  /** The assertions of the source on the way of an action. */
  predicate Asserted(s: State, a: Action) {
    match a
    case Run(_) => IsIdle(s.dc)
    case FlushAtEnd(_) => s.bridge.current.Some? ==> MayFlush(s.bridge)
    case SubmitReplayGain(_) => s.bridge.current.Some? ==> MayFlush(s.bridge)
    case FlushChunk(_) => MayFlush(s.bridge)
    case FinishRun => s.bridge.current.None? && !IsIdle(s.dc)
    case Ready(_, _) => s.pipe == [] && !s.bridge.seeking
    case GetSeekTime => s.bridge.initialRunning || s.dc.command == SeekCommand
    case SeekError => s.bridge.initialRunning || s.dc.command == SeekCommand
    case CommandFinished => MayFinish(s)
    case SubmitData =>
      var t := SubmitDataStep(s);
      t.pc == InSubmit ==> !t.bridge.initialPending && !t.bridge.initialRunning
    case TakeChunk => !s.bridge.initialPending && !s.bridge.initialRunning
    case _ => true
  }

  predicate MayFlush(b: Bridge) { !b.seeking && !b.initialRunning && !b.initialPending }

  predicate MayFinish(s: State) {
    && (s.dc.command != NoCommand || s.bridge.initialRunning)
    && (s.dc.command == SeekCommand ==> s.bridge.initialRunning || s.dc.seekError || s.bridge.seeking)
    && (s.bridge.initialRunning ==> !s.bridge.seeking && s.bridge.current.None? && s.pipe == [])
  }

  lemma AssertionsHold(states: seq<State>, actions: seq<Action>, k: nat)
    requires IsRun(states, actions) && k < |actions|
    ensures Enabled(states[k], actions[k]) && Asserted(states[k], actions[k])
  {
    ReachableInv(states, actions, k);
  }

  // --- seeking ---------------------------------------------------------------------------

  /** The SEEK command is acknowledged without seek_error. */
  predicate AcksSeek(s: State, s': State) {
    s.dc.command == SeekCommand && s'.dc.command == NoCommand && !s'.dc.seekError
  }

  /** Every chunk was created after the last SEEK was acknowledged. */
  predicate Fresh(s: State) {
    && (forall i :: 0 <= i < |s.pipe| ==> s.pipe[i] == s.acks)
    && (s.bridge.current.Some? ==> s.bridge.current.value == s.acks)
  }

  /** A failing decoder acknowledges a SEEK that it never saw, with chunks in the pipe. */
  predicate AcksBlindly(s: State, a: Action) {
    a == FinishRun && s.pc.Finish? && (!s.pc.ok || s.bridge.error) && s.dc.command == SeekCommand && s.pipe != []
  }

  lemma AckStep(s: State, a: Action)
    requires Inv(s) && Enabled(s, a) && AcksSeek(s, Step(s, a))
    ensures var s' := Step(s, a);
            s'.acks == s.acks + 1 && ((s'.pipe == [] && s'.bridge.current.None?) <==> !AcksBlindly(s, a))
  {
  }

  /** Acknowledging a SEEK leaves no chunk in the pipe and no current chunk, except for the
      blind acknowledgement. */
  lemma AckIsClean(states: seq<State>, actions: seq<Action>, k: nat)
    requires IsRun(states, actions) && k < |actions| && AcksSeek(states[k], states[k + 1])
    ensures (states[k + 1].pipe == [] && states[k + 1].bridge.current.None?) <==> !AcksBlindly(states[k], actions[k])
    ensures states[k + 1].acks == states[k].acks + 1
  {
    ReachableInv(states, actions, k);
    AckStep(states[k], actions[k]);
  }

  lemma StepKeepsFresh(s: State, a: Action)
    requires Inv(s) && Fresh(s) && Enabled(s, a)
    ensures Fresh(Step(s, a)) <==> !AcksBlindly(s, a)
  {
    if AcksBlindly(s, a) {
      assert Step(s, a).pipe[0] == s.pipe[0] == s.acks;
    }
  }

  predicate NeverBlind(states: seq<State>, actions: seq<Action>, n: nat)
    requires n <= |actions| < |states|
  {
    forall j :: 0 <= j < n ==> !AcksBlindly(states[j], actions[j])
  }

  lemma {:induction false} FreshUpTo(states: seq<State>, actions: seq<Action>, k: nat)
    requires IsRun(states, actions) && k < |states| && NeverBlind(states, actions, k)
    ensures Fresh(states[k])
  {
    if k > 0 {
      FreshUpTo(states, actions, k - 1);
      ReachableInv(states, actions, k - 1);
      StepKeepsFresh(states[k - 1], actions[k - 1]);
    }
  }

  /** After any acknowledged SEEK no chunk from before it is left, exactly in those runs in
      which no failing decoder acknowledges blindly. */
  lemma OldChunksAreGone(states: seq<State>, actions: seq<Action>)
    requires IsRun(states, actions)
    ensures (forall k :: 0 <= k < |states| ==> Fresh(states[k])) <==> NeverBlind(states, actions, |actions|)
  {
    if NeverBlind(states, actions, |actions|) {
      forall k | 0 <= k < |states| ensures Fresh(states[k]) {
        FreshUpTo(states, actions, k);
      }
    } else {
      var j :| 0 <= j < |actions| && AcksBlindly(states[j], actions[j]);
      if Fresh(states[j]) {
        ReachableInv(states, actions, j);
        StepKeepsFresh(states[j], actions[j]);
        assert !Fresh(states[j + 1]);
      }
    }
  }

  /** While the player is in Seek(): the command is still pending, has failed, or no chunk from
      before it is left. */
  predicate SeekDone(s: State) { s.dc.command == SeekCommand || s.dc.seekError || Fresh(s) }

  lemma SeekDoneStep(s: State, a: Action)
    requires Inv(s) && Enabled(s, a) && (s.player == InSeek || s.player == InSeekStartup)
    requires SeekDone(s) && !AcksBlindly(s, a)
    ensures SeekDone(Step(s, a))
  {
    if s.dc.command == SeekCommand {
      if AcksSeek(s, Step(s, a)) {
        AckStep(s, a);
      }
    } else if Fresh(s) {
      StepKeepsFresh(s, a);
    }
  }

  /** States j to k belong to one call of Seek(). */
  predicate InOneSeek(states: seq<State>, j: nat, k: nat)
    requires j <= k < |states|
  {
    forall i :: j <= i <= k ==> states[i].player == InSeek || states[i].player == InSeekStartup
  }

  lemma SeekDoneNext(states: seq<State>, actions: seq<Action>, k: nat)
    requires IsRun(states, actions) && k < |actions| && !AcksBlindly(states[k], actions[k])
    requires states[k].player == InSeek || states[k].player == InSeekStartup
    ensures SeekDone(states[k]) ==> SeekDone(states[k + 1])
  {
    ReachableInv(states, actions, k);
    if SeekDone(states[k]) {
      SeekDoneStep(states[k], actions[k]);
    }
  }

  /** When Seek() returns, the decoder is not starting, and no command is pending; and unless
      the seek has failed, or a failing decoder acknowledged it blindly, no chunk from before
      the seek is left, whatever happened before the call. */
  lemma SeekReturnsFresh(states: seq<State>, actions: seq<Action>, j: nat, k: nat)
    requires IsRun(states, actions) && j <= k < |actions| && InOneSeek(states, j, k)
    requires states[j].dc.command == SeekCommand && states[k].player == InSeekStartup && actions[k] == Resume
    ensures states[k + 1].dc.state != Starting && states[k + 1].dc.command == NoCommand
    ensures !states[k + 1].dc.seekError && (forall i :: j <= i < k ==> !AcksBlindly(states[i], actions[i]))
            ==> Fresh(states[k + 1])
  {
    if forall i :: j <= i < k ==> !AcksBlindly(states[i], actions[i]) {
      var flags := seq(|states|, i requires 0 <= i < |states| => SeekDone(states[i]));
      forall i | j <= i < k && flags[i] ensures flags[i + 1] {
        SeekDoneNext(states, actions, i);
      }
      Persists(flags, j, k);
    }
  }

  lemma ExtendRun(states: seq<State>, actions: seq<Action>, a: Action, s': State)
    returns (states': seq<State>, actions': seq<Action>)
    requires IsRun(states, actions) && Enabled(states[|states| - 1], a) && s' == Step(states[|states| - 1], a)
    ensures IsRun(states', actions') && |states'| == |states| + 1
    ensures states'[|states|] == s' && states'[|states| - 1] == states[|states| - 1]
  {
    states', actions' := states + [s'], actions + [a];
  }

  const BEGIN := State(Control(Stopped, NoCommand, false, false, false, false, false, false), [], 0,
                       NO_BRIDGE, Plugin(NoCommand, false), Top, Free)
  const STARTING := BEGIN.(dc := BEGIN.dc.(state := Starting), pc := InPlugin)
  const DECODING := STARTING.(dc := BEGIN.dc.(state := Decoding, seekable := true))
  const WITH_CHUNK := DECODING.(pipe := [0], bridge := NO_BRIDGE.(hadChunk := true))

  lemma StartsDecoding() returns (states: seq<State>, actions: seq<Action>)
    ensures IsRun(states, actions) && states[|states| - 1] == DECODING
  {
    states, actions := ExtendRun([BEGIN], [], Start(false, false),
                                 BEGIN.(dc := BEGIN.dc.(command := StartCommand), player := InStart));
    states, actions := ExtendRun(states, actions, Run(false), STARTING.(player := InStart));
    states, actions := ExtendRun(states, actions, Resume, STARTING);
    states, actions := ExtendRun(states, actions, Ready(true, false), DECODING);
  }

  lemma SubmitsChunk() returns (states: seq<State>, actions: seq<Action>)
    ensures IsRun(states, actions) && states[|states| - 1] == WITH_CHUNK
  {
    states, actions := StartsDecoding();
    states, actions := ExtendRun(states, actions, SubmitData, DECODING.(pc := InSubmit));
    states, actions := ExtendRun(states, actions, TakeChunk,
                                 DECODING.(pc := InSubmit, bridge := NO_BRIDGE.(current := Some(0), hadChunk := true)));
    states, actions := ExtendRun(states, actions, FlushChunk(false), WITH_CHUNK.(pc := InSubmit));
    states, actions := ExtendRun(states, actions, Leave(NoCommand), WITH_CHUNK);
  }

  /** A run in which it does: a chunk is in the pipe, a read fails while SEEK is pending. */
  lemma BlindAckHappens() returns (states: seq<State>, actions: seq<Action>)
    ensures IsRun(states, actions) && |states| >= 2
    ensures AcksSeek(states[|states| - 2], states[|states| - 1]) && states[|states| - 1].pipe != []
  {
    var asked := WITH_CHUNK.(dc := DECODING.dc.(command := SeekCommand, seekPositive := true), player := InSeek);
    var failed := asked.(bridge := WITH_CHUNK.bridge.(error := true));
    states, actions := SubmitsChunk();
    states, actions := ExtendRun(states, actions, Seek(true), asked);
    states, actions := ExtendRun(states, actions, ReadFails, failed);
    states, actions := ExtendRun(states, actions, PluginReturn(true), failed.(pc := FlushLast(true)));
    states, actions := ExtendRun(states, actions, FlushAtEnd(true), failed.(pc := Finish(true)));
    states, actions := ExtendRun(states, actions, FinishRun,
                                 failed.(dc := asked.dc.(state := Failed, command := NoCommand), bridge := NO_BRIDGE,
                                         pc := Top, acks := 1));
  }
}
