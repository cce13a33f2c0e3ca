/** What the shared pipe promises, for every run of player and outputs. */
module SharedPipeTheorems {
  import opened Prelude
  import opened PipeCursor
  import opened OutputThread
  import opened SharedPipe
  import opened SharedPipeProofs

  /** In every state of every run, the chunks an open output has fetched since it was
      opened or cancelled are a contiguous piece of the pushed sequence, in order and
      without repetition. */
  lemma FetchedIsContiguous(states: seq<State>, actions: seq<Action>, k: nat, i: nat)
    requires IsRun(states, actions) && k < |states| && i < |states[k].outputs|
    ensures states[k].outputs[i].open ==>
              var u := states[k].outputs[i].source;
              u.start + |u.fetched| <= |states[k].pushed| &&
              u.fetched == states[k].pushed[u.start..u.start + |u.fetched|]
  {
    RunKeepsInv(states, actions, k);
    var s := states[k];
    assert OkAt(s, i);
  }

  /** One step of any thread either leaves an open output's run alone, or extends it by
      the very next pushed chunk, or ends it because of CANCEL, KILL or RELEASE. */
  lemma RunGrowsByNextChunk(states: seq<State>, actions: seq<Action>, k: nat, i: nat)
    requires IsRun(states, actions) && k + 1 < |states| && i < |states[k].outputs|
    ensures |states[k + 1].outputs| == |states[k].outputs|
    ensures var o, o' := states[k].outputs[i], states[k + 1].outputs[i];
            o.open && o'.open ==>
              Grows(o.source, o'.source, states[k].pushed, states[k].shifted) ||
              (o'.source.fetched == [] && o.command in {CANCEL, KILL, RELEASE})
  {
    RunKeepsInv(states, actions, k);
    var s := states[k];
    assert OkAt(s, i);
    var a := actions[k];
    assert Next(s, a, states[k + 1]);
    if a.ByOutput? && a.i == i {
      if Cleared(s.player, i) {
        StepKeepsCleared(s.outputs[i], s.pushed, s.shifted, a.choice);
      } else {
        StepKeeps(s.outputs[i], s.pushed, s.shifted, a.choice);
      }
    }
  }

  /** The cursor of an open output is null or points at a chunk still in the pipe. */
  lemma CursorIsInPipe(states: seq<State>, actions: seq<Action>, k: nat, i: nat)
    requires IsRun(states, actions) && k < |states| && i < |states[k].outputs|
    ensures InRange(states[k])
    ensures var o := states[k].outputs[i];
            o.open && o.source.cursor.chunk.Some? ==> o.source.cursor.chunk.value in Pipe(states[k])
  {
    RunKeepsInv(states, actions, k);
    var s := states[k];
    assert OkAt(s, i);
    var o := s.outputs[i];
    if o.open && o.source.cursor.chunk.Some? {
      assert o.source.cursor.chunk.value == Pipe(s)[RunEnd(o.source) - 1 - s.shifted];
    }
  }

  /** Has the output fetched the chunk at this position and finished it? */
  predicate FinishedWith(o: Output, position: nat) {
    var u := o.source;
    u.start <= position < RunEnd(u) && (position + 1 == RunEnd(u) ==> !u.current && u.cursor.consumed)
  }

  /** CheckPipe() takes a chunk out of the pipe only after every open output has fetched
      it in its current run and finished it. */
  lemma ReclaimedOnlyWhenFinished(states: seq<State>, actions: seq<Action>, k: nat, i: nat)
    requires IsRun(states, actions) && k + 1 < |states| && i < |states[k].outputs|
    requires states[k].player.Scanning? || states[k].player.ShiftingTail?
    ensures states[k + 1].shifted > states[k].shifted && states[k].outputs[i].open ==>
              states[k + 1].shifted == states[k].shifted + 1 &&
              FinishedWith(states[k].outputs[i], states[k].shifted)
  {
    RunKeepsInv(states, actions, k);
    var s := states[k];
    assert OkAt(s, i);
    assert Next(s, actions[k], states[k + 1]);
    if s.player.Scanning? && s.player.i >= |s.outputs| {
      NextOfAt(Pipe(s), 0);
    }
  }

  /** No output still needs the head. */
  predicate NobodyNeedsHead(s: State) {
    InRange(s) && s.shifted < |s.pushed| &&
    forall i :: 0 <= i < |s.outputs| && s.outputs[i].open ==> DoneWithHead(s.outputs[i].source, s.pushed, s.shifted)
  }

  /** CheckPipe() stops at the first chunk some output still needs and at no other: it
      gives up a scan only for an output that has not consumed the head, and once nobody
      needs the head, no step of anybody makes it give up before the head is taken out. */
  lemma ScanStopsOnlyForUnconsumed(s: State, a: Action, s': State)
    requires Inv(s) && Next(s, a, s') && s.player.Scanning?
    ensures s'.player == Idle ==>
              s.player.i < |s.outputs| && !ChunkConsumed(s.outputs[s.player.i], Pipe(s), Pipe(s)[0])
    ensures NobodyNeedsHead(s) ==>
              s'.shifted > s.shifted || (NobodyNeedsHead(s') && (s'.player.Scanning? || s'.player.ClearingTail?))
  {
    match a
    case ByPlayer(ch) =>
      if NobodyNeedsHead(s) && s.player.i < |s.outputs| {
        assert OkAt(s, s.player.i);
        if s.outputs[s.player.i].open {
          ConsumedMeansDone(s.outputs[s.player.i], s.pushed, s.shifted);
        }
      }
    case ByOutput(i, ch) =>
      assert OkAt(s, i);
      StepKeeps(s.outputs[i], s.pushed, s.shifted, ch);
  }

  // --- the gate ---------------------------------------------------------------------------

  /** The gate is what prevents a replay: whenever an open output has lost its cursor between
      LockClearTailChunk() and Shift(), allow_play keeps its thread from InternalPlay(), which
      would fetch the chunk that was played last once more. */
  lemma WithoutGateTailIsReplayed(states: seq<State>, actions: seq<Action>, k: nat, i: nat, ch: Choice)
    requires IsRun(states, actions) && k < |states| && i < |states[k].outputs|
    requires states[k].outputs[i].open && Cleared(states[k].player, i)
    ensures InRange(states[k])
    ensures var s, o := states[k], states[k].outputs[i];
            && !o.allowPlay && (o.command == NONE ==> TaskStep(o, Pipe(s), s.shifted, ch) == o)
            && o.source.fetched != []
            && var u := InternalPlay(o, Pipe(s), s.shifted, ch).source;
               u.fetched == o.source.fetched + [o.source.fetched[|o.source.fetched| - 1]] && !RunOk(u, s.pushed)
  {
    RunKeepsInv(states, actions, k);
    var s := states[k];
    assert OkAt(s, i);
    assert Pipe(s)[0] == s.pushed[s.shifted];
  }

  lemma ExtendRun(states: seq<State>, actions: seq<Action>, a: Action, s': State)
    returns (states': seq<State>, actions': seq<Action>)
    requires IsRun(states, actions) && Next(states[|states| - 1], a, s')
    ensures IsRun(states', actions') && states'[|states'| - 1] == s'
  {
    states', actions' := states + [s'], actions + [a];
  }

  const QUIET := Choice(false, false, false, false, false, false, false, false, false, false)
  const CLOSED_SOURCE := Source(false, Cursor(None, false), false, false, false, [], 0)
  const CLOSED := Output(NONE, false, true, false, true, false, CLOSED_SOURCE, Task, Counts(0, 0, 0))
  const OPENED := CLOSED.(open := true, source := CLOSED_SOURCE.(open := true), counts := Counts(1, 1, 1))
  const PLAYED_SOURCE := Source(true, Cursor(Some(7), true), false, false, false, [7], 0)

  lemma OutputOpens() returns (states: seq<State>, actions: seq<Action>)
    ensures IsRun(states, actions) && states[|states| - 1] == State([OPENED], [], 0, Idle)
  {
    var asked := CLOSED.(command := OPEN, counts := Counts(1, 0, 0));
    var opening := asked.(counts := Counts(1, 1, 0), source := CLOSED_SOURCE.(open := true),
                          pc := Branch(OPEN, OpenDevice));
    states, actions := [State([CLOSED], [], 0, Idle)], [];
    states, actions := ExtendRun(states, actions, ByPlayer(BeginCommands), State([CLOSED], [], 0, Issuing));
    states, actions := ExtendRun(states, actions, ByPlayer(Send(0, OPEN)), State([asked], [], 0, Issuing));
    states, actions := ExtendRun(states, actions, ByPlayer(EndCommands),
                                 State([asked], [], 0, Waiting(0, ForCommands)));
    states, actions := ExtendRun(states, actions, ByOutput(0, QUIET), State([opening], [], 0, Waiting(0, ForCommands)));
    states, actions := ExtendRun(states, actions, ByOutput(0, QUIET),
                                 State([opening.(open := true, pc := Branch(OPEN, OpenMixer))], [], 0,
                                       Waiting(0, ForCommands)));
    states, actions := ExtendRun(states, actions, ByOutput(0, QUIET), State([OPENED], [], 0, Waiting(0, ForCommands)));
    states, actions := ExtendRun(states, actions, ByPlayer(Proceed), State([OPENED], [], 0, Waiting(1, ForCommands)));
    states, actions := ExtendRun(states, actions, ByPlayer(Proceed), State([OPENED], [], 0, Idle));
  }

  lemma OutputPlays() returns (states: seq<State>, actions: seq<Action>)
    ensures IsRun(states, actions) &&
            states[|states| - 1] == State([OPENED.(source := PLAYED_SOURCE, pc := Leaving)], [7], 0, Idle)
  {
    var filtering := PLAYED_SOURCE.(cursor := Cursor(Some(7), false), current := true);
    states, actions := OutputOpens();
    states, actions := ExtendRun(states, actions, ByPlayer(Push(7)), State([OPENED], [7], 0, Idle));
    states, actions := ExtendRun(states, actions, ByOutput(0, QUIET),
                                 State([OPENED.(source := filtering, pc := Loop(Filtering(false)))], [7], 0, Idle));
    states, actions := ExtendRun(states, actions, ByOutput(0, QUIET),
                                 State([OPENED.(source := PLAYED_SOURCE, pc := Leaving)], [7], 0, Idle));
  }

  /** Such a state is reached: one output plays one chunk, and CheckPipe() clears the tail. */
  lemma TailIsCleared() returns (states: seq<State>, actions: seq<Action>)
    ensures IsRun(states, actions)
    ensures var s := states[|states| - 1];
            |s.outputs| == 1 && s.outputs[0].open && s.outputs[0].command == NONE && Cleared(s.player, 0)
  {
    var played := OPENED.(source := PLAYED_SOURCE, pc := Leaving);
    var cleared := played.(allowPlay := false, source := PLAYED_SOURCE.(cursor := Cursor(None, true)));
    states, actions := OutputPlays();
    states, actions := ExtendRun(states, actions, ByPlayer(BeginCheckPipe), State([played], [7], 0, Scanning(0)));
    states, actions := ExtendRun(states, actions, ByPlayer(Proceed), State([played], [7], 0, Scanning(1)));
    states, actions := ExtendRun(states, actions, ByPlayer(Proceed), State([played], [7], 0, ClearingTail(0)));
    states, actions := ExtendRun(states, actions, ByPlayer(Proceed), State([cleared], [7], 0, ClearingTail(1)));
  }

  /** The assertions of SharedPipeConsumer::ClearTail and IsConsumed, of CommandAsync, and
      of every LockXxx() that demands allow_play: none can fail in any run. */
  lemma AssertionsHold(states: seq<State>, actions: seq<Action>, k: nat, i: nat)
    requires IsRun(states, actions) && k < |states| && i < |states[k].outputs|
    ensures var s := states[k];
            var o := s.outputs[i];
            && (s.player == ClearingTail(i) && o.open ==>
                  s.shifted < |s.pushed| && o.source.cursor == Cursor(Some(s.pushed[s.shifted]), true))
            && (s.player == Scanning(i) && o.open && o.source.cursor.chunk.Some? && s.shifted < |s.pushed| ==>
                  o.source.cursor.chunk.value == s.pushed[s.shifted] || s.shifted + 1 < |s.pushed|)
            && (s.player == PlayerPc.Cancelling(i) || s.player == ClosingAll(i) || s.player == Idle ==>
                o.command == NONE)
            && (s.player in {Idle, Issuing, ClosingAll(i), Scanning(i)} ==> o.allowPlay)
  {
    RunKeepsInv(states, actions, k);
    assert OkAt(states[k], i);
  }

  /** Commands are neither lost nor finished twice: in every state of every run at most one
      is outstanding, and every branch of Task() that was left has finished its command
      exactly once.  CommandFinished() with no command would break the first equation. */
  lemma CommandsAreFinishedOnce(states: seq<State>, actions: seq<Action>, k: nat, i: nat)
    requires IsRun(states, actions) && k < |states| && i < |states[k].outputs|
    ensures var o := states[k].outputs[i];
            && o.counts.issued == o.counts.finished + (if o.command == NONE then 0 else 1)
            && o.counts.taken == o.counts.finished + (if o.pc.Branch? then 1 else 0)
            && (o.pc.Branch? ==> o.command == o.pc.executing)
  {
    RunKeepsInv(states, actions, k);
    assert OkAt(states[k], i);
  }
}
