/**
 An output is done with a chunk only after it has played it: all of its data was taken by the
 device, and its tag was sent to it.

 What an output still owes its chunk is recorded from what the filter and the device do, not
 from the fields of the source.
 */
module OutputPlayback {
  import opened Prelude
  import opened PipeCursor
  import opened OutputThread
  import opened SharedPipe
  import opened SharedPipeProofs

  /** What is still to be done with the chunk that the output has: play data, send a tag. */
  datatype Debt = Debt(data: bool, tag: bool)

  const NOTHING := Debt(false, false)

  /** The filter runs; only then it is known if the chunk has data. */
  predicate InFilter(o: Output) { o.pc.Loop? && o.pc.loop.Filtering? }

  /** The filter returns. */
  predicate Filters(o: Output, ch: Choice) { InFilter(o) && !ch.failed }

  /** The device takes all data that was left. */
  predicate PlaysAll(o: Output, ch: Choice) {
    o.pc == Loop(PlayingData) && !ch.interrupted && !ch.failed && ch.drained
  }

  /** The source has got another chunk. */
  predicate Fetches(u: Source, u': Source) { |u'.fetched| > |u.fetched| }

  /** The source is done with its chunk. */
  predicate Consumes(u: Source, u': Source) {
    u.current && (Fetches(u, u') || (u'.cursor.chunk == u.cursor.chunk && u'.cursor.consumed))
  }

  /** The debt after the filter or the device has returned. */
  function Settled(d: Debt, o: Output, ch: Choice): Debt {
    if Filters(o, ch) then d.(data := ch.hasData)
    else if PlaysAll(o, ch) then d.(data := false)
    else d
  }

  /** The debt at the end of the step: another chunk, or the tag is handed to the device. */
  function Later(d: Debt, u: Source, o': Output, ch: Choice): Debt {
    if Fetches(u, o'.source) then Debt(false, o'.sendTags && ch.hasTag)
    else if o'.pc == Loop(SendingTag) then d.(tag := false)
    else d
  }

  // --- the fields of the source tell the debt ----------------------------------------------

  predicate AfterTag(pc: Pc) { pc == Loop(SendingTag) || pc == Loop(Delaying) || pc == Loop(PlayingData) }

  predicate DebtOk(d: Debt, o: Output) {
    o.source.current ==>
      && (InFilter(o) || o.source.pendingData == d.data)
      && d.tag == (o.sendTags && o.source.pendingTag)
      && (AfterTag(o.pc) ==> !o.source.pendingTag)
  }

  /** The same, while the thread holds the mutex. */
  predicate Matches(d: Debt, o: Output) {
    o.source.current ==> o.source.pendingData == d.data && d.tag == (o.sendTags && o.source.pendingTag)
  }

  /** Nothing is owed to a chunk that the output is done with; only a new chunk is filtered. */
  predicate Paid(d: Debt, u: Source, o': Output, ch: Choice) {
    && (Consumes(u, o'.source) ==> d == NOTHING) && DebtOk(Later(d, u, o', ch), o')
    && (InFilter(o') ==> Fetches(u, o'.source))
  }

  /** Asking the pipe for a chunk. */
  predicate Asked(u: Source, u': Source, hasTag: bool) {
    if u'.current then Fetches(u, u') && u'.pendingTag == hasTag else u'.fetched == u.fetched
  }

  lemma FillGetAsks(u: Source, pipe: seq<Address>, shifted: nat, hasTag: bool)
    requires !u.current
    ensures Asked(u, FillGet(u, pipe, shifted, hasTag), hasTag)
  {
  }

  lemma AskingPays(o: Output, d: Debt, u': Source, pc: Pc, ch: Choice)
    requires o.source.current ==> d == NOTHING
    requires Asked(o.source, u', ch.hasTag) && (if u'.current then pc.Loop? && pc.loop.Filtering? else !pc.Loop?)
    ensures Paid(d, o.source, o.(source := u', pc := pc), ch)
  {
  }

  lemma RefillPays(o: Output, d: Debt, pipe: seq<Address>, shifted: nat, ch: Choice)
    requires SourceOk(o.source) && Matches(d, o)
    ensures Paid(d, o.source, Refill(o, pipe, shifted, ch), ch)
  {
    var u := FillDrop(o.source);
    if !u.current {
      var u' := FillGet(u, pipe, shifted, ch.hasTag);
      FillGetAsks(u, pipe, shifted, ch.hasTag);
      AskingPays(o, d, u', if u'.current then Loop(Filtering(true)) else Leaving, ch);
    }
  }

  lemma PlayDataPays(o: Output, d: Debt, pipe: seq<Address>, shifted: nat, ch: Choice)
    requires SourceOk(o.source) && Matches(d, o) && !(o.source.current && o.source.pendingTag)
    ensures Paid(d, o.source, PlayData(o, pipe, shifted, ch), ch)
  {
    if !(o.command == NONE && o.source.pendingData) {
      RefillPays(o, d, pipe, shifted, ch);
    }
  }

  lemma PlayTagPays(o: Output, d: Debt, pipe: seq<Address>, shifted: nat, ch: Choice)
    requires SourceOk(o.source) && Matches(d, o) && o.source.current
    ensures Paid(d, o.source, PlayTag(o, pipe, shifted, ch), ch)
  {
    if !(o.sendTags && o.source.pendingTag) {
      PlayDataPays(o.(source := o.source.(pendingTag := false)), d, pipe, shifted, ch);
    }
  }

  lemma LoopTopPays(o: Output, d: Debt, pipe: seq<Address>, shifted: nat, ch: Choice)
    requires SourceOk(o.source) && Matches(d, o) && o.source.current
    ensures Paid(d, o.source, LoopTop(o, pipe, shifted, ch), ch)
  {
    if o.command == NONE && !ch.notify {
      PlayTagPays(o, d, pipe, shifted, ch);
    }
  }

  lemma InternalPlayPays(o: Output, d: Debt, pipe: seq<Address>, shifted: nat, ch: Choice)
    requires SourceOk(o.source) && Matches(d, o)
    ensures Paid(d, o.source, InternalPlay(o, pipe, shifted, ch), ch)
  {
    var u := FillDrop(o.source);
    if u.current {
      LoopTopPays(o, d, pipe, shifted, ch);
    } else {
      var u' := FillGet(u, pipe, shifted, ch.hasTag);
      FillGetAsks(u, pipe, shifted, ch.hasTag);
      AskingPays(o, d, u', if u'.current then Loop(Filtering(false)) else Task, ch);
    }
  }

  lemma PlayedPays(o: Output, d: Debt, pipe: seq<Address>, shifted: nat, ch: Choice)
    requires ThreadOk(o) && DebtOk(d, o) && o.pc == Loop(PlayingData)
    ensures Paid(Settled(d, o, ch), o.source, LoopStep(o, PlayingData, pipe, shifted, ch), ch)
  {
    if PlaysAll(o, ch) {
      var o1 := o.(source := DropCurrentChunk(o.source.(pendingData := false)));
      PlayDataPays(o1, Settled(d, o, ch), pipe, shifted, ch);
    } else if !ch.interrupted && !ch.failed {
      PlayDataPays(o, d, pipe, shifted, ch);
    }
  }

  lemma FilteredPays(o: Output, d: Debt, pipe: seq<Address>, shifted: nat, ch: Choice)
    requires ThreadOk(o) && DebtOk(d, o) && InFilter(o)
    ensures Paid(Settled(d, o, ch), o.source, LoopStep(o, o.pc.loop, pipe, shifted, ch), ch)
  {
    if !ch.failed {
      LoopTopPays(o.(source := o.source.(pendingData := ch.hasData)), Settled(d, o, ch), pipe, shifted, ch);
    }
  }

  lemma SentPays(o: Output, d: Debt, pipe: seq<Address>, shifted: nat, ch: Choice)
    requires ThreadOk(o) && DebtOk(d, o) && o.pc == Loop(SendingTag)
    ensures Paid(d, o.source, LoopStep(o, SendingTag, pipe, shifted, ch), ch)
  {
    if !ch.interrupted {
      PlayDataPays(o, d, pipe, shifted, ch);
    }
  }

  lemma DelayedPays(o: Output, d: Debt, pipe: seq<Address>, shifted: nat, ch: Choice)
    requires ThreadOk(o) && DebtOk(d, o) && o.pc == Loop(Delaying)
    ensures Paid(d, o.source, LoopStep(o, Delaying, pipe, shifted, ch), ch)
  {
    if o.command != NONE {
      RefillPays(o, d, pipe, shifted, ch);
    }
  }

  lemma LoopStepPays(o: Output, d: Debt, pipe: seq<Address>, shifted: nat, ch: Choice)
    requires ThreadOk(o) && DebtOk(d, o) && o.pc.Loop?
    ensures Paid(Settled(d, o, ch), o.source, LoopStep(o, o.pc.loop, pipe, shifted, ch), ch)
  {
    match o.pc.loop
    case Filtering(inLoop) => FilteredPays(o, d, pipe, shifted, ch);
    case Notifying => PlayTagPays(o, d, pipe, shifted, ch);
    case SendingTag => SentPays(o, d, pipe, shifted, ch);
    case Delaying => DelayedPays(o, d, pipe, shifted, ch);
    case PlayingData => PlayedPays(o, d, pipe, shifted, ch);
  }

  /** The source has no chunk. */
  predicate Empty(u: Source) { !u.current && u.cursor.chunk == None && u.fetched == [] }

  /** The chunk is left alone, or given up. */
  predicate Leaves(o: Output, o': Output) {
    && (o'.source == o.source || o'.source == o.source.(open := true) || Empty(o'.source))
    && !o'.pc.Loop? && o'.sendTags == o.sendTags
  }

  lemma LeavingPays(o: Output, d: Debt, o': Output, ch: Choice)
    requires SourceOk(o.source) && DebtOk(d, o) && !o.pc.Loop? && Leaves(o, o')
    ensures Paid(d, o.source, o', ch)
  {
  }

  lemma OpenLeaves(o: Output, ch: Choice)
    ensures Leaves(o, OpenSource(o, ch))
  {
  }

  lemma DisableLeaves(o: Output)
    ensures Leaves(o, BeginDisable(o)) && Leaves(o, FinishDisable(o))
  {
  }

  lemma CancelLeaves(o: Output, ch: Choice)
    requires o.command == CANCEL || o.command == RELEASE
    ensures Leaves(o, Execute(o, ch))
  {
  }

  lemma ExecuteLeaves(o: Output, ch: Choice)
    requires o.pc.Task?
    ensures Leaves(o, Execute(o, ch))
  {
    match o.command
    case OPEN => OpenLeaves(o, ch);
    case DISABLE => DisableLeaves(o);
    case KILL => DisableLeaves(o);
    case CANCEL => CancelLeaves(o, ch);
    case RELEASE => CancelLeaves(o, ch);
    case _ =>
  }

  lemma OpenStagesLeave(o: Output, ch: Choice)
    requires o.pc.Branch? && InOpen(o.pc.stage)
    ensures Leaves(o, BranchStep(o, o.pc.stage, ch))
  {
  }

  lemma EnablingLeaves(o: Output, ch: Choice)
    requires o.pc.Branch? && o.pc.stage.Enabling?
    ensures Leaves(o, BranchStep(o, o.pc.stage, ch))
  {
    OpenLeaves(o.(reallyEnabled := true), ch);
  }

  lemma ClosingLeaves(o: Output, ch: Choice)
    requires o.pc.Branch? && (o.pc.stage.ClosingDevice? || o.pc.stage.Draining?)
    ensures Leaves(o, BranchStep(o, o.pc.stage, ch))
  {
  }

  lemma BranchLeaves(o: Output, ch: Choice)
    requires o.pc.Branch?
    ensures Leaves(o, BranchStep(o, o.pc.stage, ch))
  {
    match o.pc.stage
    case Enabling => EnablingLeaves(o, ch);
    case Disabling => DisableLeaves(o);
    case OpenClosing => OpenStagesLeave(o, ch);
    case OpenDevice => OpenStagesLeave(o, ch);
    case OpenAborting => OpenStagesLeave(o, ch);
    case OpenMixer => OpenStagesLeave(o, ch);
    case ClosingDevice => ClosingLeaves(o, ch);
    case Draining => ClosingLeaves(o, ch);
    case _ =>
  }

  lemma QuietLeaves(o: Output, ch: Choice)
    requires !o.pc.Loop?
    ensures Leaves(o, QuietStep(o, ch))
  {
    match o.pc
    case Closing(_) =>
    case Paused =>
    case _ =>
  }

  lemma ExecutePays(o: Output, d: Debt, ch: Choice)
    requires SourceOk(o.source) && DebtOk(d, o) && o.pc.Task?
    ensures Paid(d, o.source, Execute(o, ch), ch)
  {
    ExecuteLeaves(o, ch);
    LeavingPays(o, d, Execute(o, ch), ch);
  }

  lemma TakePays(o: Output, d: Debt, ch: Choice)
    requires SourceOk(o.source) && DebtOk(d, o) && o.pc.Task?
    ensures Paid(d, o.source, Take(o, ch), ch)
  {
    var o1 := o.(counts := o.counts.(taken := o.counts.taken + 1));
    ExecutePays(o1, d, ch);
    assert o1.source == o.source && Take(o, ch) == Execute(o1, ch);
  }

  lemma IdlePays(o: Output, d: Debt, ch: Choice)
    requires SourceOk(o.source) && DebtOk(d, o) && o.pc.Task?
    ensures Paid(d, o.source, o, ch)
  {
  }

  lemma TaskPays(o: Output, d: Debt, pipe: seq<Address>, shifted: nat, ch: Choice)
    requires SourceOk(o.source) && DebtOk(d, o) && o.pc.Task?
    ensures Paid(d, o.source, TaskStep(o, pipe, shifted, ch), ch)
  {
    if o.command != NONE {
      TakePays(o, d, ch);
    } else if o.open && o.allowPlay && !o.caughtInterrupted {
      InternalPlayPays(o, d, pipe, shifted, ch);
    } else {
      IdlePays(o, d, ch);
    }
  }

  /** One step of an output thread. */
  lemma StepPays(o: Output, d: Debt, pipe: seq<Address>, shifted: nat, ch: Choice)
    requires ThreadOk(o) && DebtOk(d, o)
    ensures Paid(Settled(d, o, ch), o.source, Step(o, pipe, shifted, ch), ch)
  {
    if o.pc.Loop? {
      LoopStepPays(o, d, pipe, shifted, ch);
    } else if o.pc.Task? {
      TaskPays(o, d, pipe, shifted, ch);
    } else if o.pc.Branch? {
      BranchLeaves(o, ch);
      LeavingPays(o, d, BranchStep(o, o.pc.stage, ch), ch);
    } else {
      QuietLeaves(o, ch);
      LeavingPays(o, d, QuietStep(o, ch), ch);
    }
  }

  // --- runs ------------------------------------------------------------------------------

  function DebtAfter(d: Debt, o: Output, o': Output, ch: Choice): Debt {
    Later(Settled(d, o, ch), o.source, o', ch)
  }

  /** The k-th step is one of output i. */
  predicate StepsAt(states: seq<State>, actions: seq<Action>, i: nat, k: nat) {
    k < |actions| < |states| && actions[k].ByOutput? && actions[k].i == i &&
    i < |states[k].outputs| && i < |states[k + 1].outputs|
  }

  /** What output i owes in the k-th state. */
  function DebtAt(states: seq<State>, actions: seq<Action>, i: nat, k: nat): Debt
    requires k <= |actions| < |states|
  {
    if k == 0 then NOTHING
    else
      var d := DebtAt(states, actions, i, k - 1);
      if StepsAt(states, actions, i, k - 1)
      then DebtAfter(d, states[k - 1].outputs[i], states[k].outputs[i], actions[k - 1].choice) else d
  }

  lemma OutputPays(s: State, i: nat, d: Debt, ch: Choice)
    requires Inv(s) && i < |s.outputs| && DebtOk(d, s.outputs[i])
    ensures Paid(Settled(d, s.outputs[i], ch), s.outputs[i].source, OutputStep(s, i, ch).outputs[i], ch)
  {
    assert OkAt(s, i);
    StepPays(s.outputs[i], d, Pipe(s), s.shifted, ch);
  }

  /** The player does not touch what the debt is about. */
  predicate SameChunk(o: Output, o': Output) {
    && o'.source.current == o.source.current && o'.source.pendingData == o.source.pendingData
    && o'.source.pendingTag == o.source.pendingTag && o'.source.fetched == o.source.fetched
    && o'.sendTags == o.sendTags && o'.pc == o.pc
  }

  lemma CriticalSectionsLeaveChunk(o: Output, c: Command)
    ensures SameChunk(o, CommandAsync(o, c)) && SameChunk(o, CancelAsync(o)) && SameChunk(o, ClearTailChunk(o))
  {
  }

  lemma PlayerLeavesChunk(s: State, ch: PlayerChoice, i: nat)
    requires InRange(s) && i < |s.outputs|
    ensures |PlayerStep(s, ch).outputs| == |s.outputs|
    ensures SameChunk(s.outputs[i], PlayerStep(s, ch).outputs[i])
  {
    var o := s.outputs[i];
    CriticalSectionsLeaveChunk(o, if ch.Send? then ch.command else CLOSE);
    match s.player
    case Issuing =>
    case Cancelling(_) =>
    case ClearingTail(_) =>
    case ClosingAll(_) => CriticalSectionsLeaveChunk(o, CLOSE);
    case _ =>
  }

  lemma NextDebtOk(s: State, a: Action, s': State, i: nat, d: Debt)
    requires Inv(s) && Next(s, a, s') && i < |s.outputs| && DebtOk(d, s.outputs[i])
    ensures |s'.outputs| == |s.outputs|
    ensures DebtOk(if a.ByOutput? && a.i == i then DebtAfter(d, s.outputs[i], s'.outputs[i], a.choice) else d,
                   s'.outputs[i])
  {
    match a
    case ByPlayer(ch) => PlayerLeavesChunk(s, ch, i);
    case ByOutput(j, ch) => if j == i { OutputPays(s, i, d, ch); }
  }

  lemma {:induction false} DebtIsOk(states: seq<State>, actions: seq<Action>, i: nat, k: nat)
    requires IsRun(states, actions) && k < |states| && i < |states[0].outputs|
    ensures i < |states[k].outputs| && DebtOk(DebtAt(states, actions, i, k), states[k].outputs[i])
  {
    if k > 0 {
      DebtIsOk(states, actions, i, k - 1);
      RunKeepsInv(states, actions, k - 1);
      NextDebtOk(states[k - 1], actions[k - 1], states[k], i, DebtAt(states, actions, i, k - 1));
    }
  }

  // --- the theorems ----------------------------------------------------------------------

  /** The output is done with its chunk in the k-th step. */
  predicate ConsumesAt(states: seq<State>, actions: seq<Action>, i: nat, k: nat) {
    StepsAt(states, actions, i, k) && Consumes(states[k].outputs[i].source, states[k + 1].outputs[i].source)
  }

  /** Then it owes nothing to that chunk. */
  lemma NothingIsOwed(states: seq<State>, actions: seq<Action>, i: nat, k: nat)
    requires IsRun(states, actions) && i < |states[0].outputs| && ConsumesAt(states, actions, i, k)
    ensures Settled(DebtAt(states, actions, i, k), states[k].outputs[i], actions[k].choice) == NOTHING
  {
    DebtIsOk(states, actions, i, k);
    RunKeepsInv(states, actions, k);
    OutputPays(states[k], i, DebtAt(states, actions, i, k), actions[k].choice);
  }

  /** Output i has the same chunks before and after the k-th step. */
  predicate KeepsChunks(states: seq<State>, i: nat, k: nat) {
    && k + 1 < |states| && i < |states[k].outputs| && i < |states[k + 1].outputs|
    && states[k + 1].outputs[i].source.fetched == states[k].outputs[i].source.fetched
  }

  /** The filter has returned data in the k-th step. */
  predicate GetsData(states: seq<State>, actions: seq<Action>, i: nat, k: nat) {
    StepsAt(states, actions, i, k) && Filters(states[k].outputs[i], actions[k].choice) && actions[k].choice.hasData
  }

  /** The device has taken all of the data in the k-th step. */
  predicate PlaysAt(states: seq<State>, actions: seq<Action>, i: nat, k: nat) {
    StepsAt(states, actions, i, k) && PlaysAll(states[k].outputs[i], actions[k].choice)
  }

  predicate OwesData(states: seq<State>, actions: seq<Action>, i: nat, k: nat) {
    k <= |actions| < |states| && i < |states[k].outputs| &&
    DebtAt(states, actions, i, k).data && !InFilter(states[k].outputs[i])
  }

  lemma OwesDataNext(states: seq<State>, actions: seq<Action>, i: nat, k: nat)
    requires IsRun(states, actions) && i < |states[0].outputs| && k < |actions| && KeepsChunks(states, i, k)
    requires (OwesData(states, actions, i, k) && !PlaysAt(states, actions, i, k)) || GetsData(states, actions, i, k)
    ensures OwesData(states, actions, i, k + 1)
  {
    var d := DebtAt(states, actions, i, k);
    DebtIsOk(states, actions, i, k);
    RunKeepsInv(states, actions, k);
    match actions[k]
    case ByPlayer(ch) => PlayerLeavesChunk(states[k], ch, i);
    case ByOutput(j, ch) => if j == i { OutputPays(states[k], i, d, ch); }
  }

  /** What the k-th step does to the debt of output i. */
  predicate StepOk(states: seq<State>, actions: seq<Action>, i: nat, k: nat)
    requires k < |actions| < |states|
  {
    && (KeepsChunks(states, i, k) && OwesData(states, actions, i, k) && !PlaysAt(states, actions, i, k)
        ==> OwesData(states, actions, i, k + 1))
    && (KeepsChunks(states, i, k) && GetsData(states, actions, i, k) ==> OwesData(states, actions, i, k + 1))
    && (ConsumesAt(states, actions, i, k) ==>
        && !GetsData(states, actions, i, k) && !DebtAt(states, actions, i, k).tag
        && (OwesData(states, actions, i, k) ==> PlaysAt(states, actions, i, k)))
  }

  lemma EachStepOk(states: seq<State>, actions: seq<Action>, i: nat, k: nat)
    requires IsRun(states, actions) && i < |states[0].outputs| && k < |actions|
    ensures StepOk(states, actions, i, k)
  {
    if ConsumesAt(states, actions, i, k) {
      NothingIsOwed(states, actions, i, k);
    }
    if KeepsChunks(states, i, k) {
      if (OwesData(states, actions, i, k) && !PlaysAt(states, actions, i, k)) || GetsData(states, actions, i, k) {
        OwesDataNext(states, actions, i, k);
      }
    }
  }

  ghost predicate AllStepsOk(states: seq<State>, actions: seq<Action>, i: nat)
    requires |actions| < |states|
  {
    forall k :: 0 <= k < |actions| ==> StepOk(states, actions, i, k)
  }

  lemma RunOwesNothing(states: seq<State>, actions: seq<Action>, i: nat)
    requires IsRun(states, actions) && i < |states[0].outputs|
    ensures AllStepsOk(states, actions, i)
  {
    forall k | 0 <= k < |actions| ensures StepOk(states, actions, i, k) {
      EachStepOk(states, actions, i, k);
    }
  }

  lemma {:induction false} OwedUntilPlayed(states: seq<State>, actions: seq<Action>, i: nat, j: nat, k: nat)
    requires j <= k < |actions| < |states| && AllStepsOk(states, actions, i)
    requires OwesData(states, actions, i, j) && ConsumesAt(states, actions, i, k)
    requires forall n :: j <= n < k ==> KeepsChunks(states, i, n)
    ensures exists m :: j <= m <= k && PlaysAt(states, actions, i, m)
    decreases k - j
  {
    assert StepOk(states, actions, i, j);
    if j < k && !PlaysAt(states, actions, i, j) {
      OwedUntilPlayed(states, actions, i, j + 1, k);
    }
  }

  lemma PlayedAfterFilter(states: seq<State>, actions: seq<Action>, i: nat, j: nat, k: nat)
    requires j <= k < |actions| < |states| && AllStepsOk(states, actions, i)
    requires GetsData(states, actions, i, j) && ConsumesAt(states, actions, i, k)
    requires forall n :: j <= n < k ==> KeepsChunks(states, i, n)
    ensures exists m :: j < m <= k && PlaysAt(states, actions, i, m)
  {
    assert StepOk(states, actions, i, j);
    OwedUntilPlayed(states, actions, i, j + 1, k);
  }

  /** A chunk with data is done with only in or after a step in which the device has taken all
      of the data. */
  lemma DataIsPlayed(states: seq<State>, actions: seq<Action>, i: nat, j: nat, k: nat)
    requires IsRun(states, actions) && i < |states[0].outputs| && j <= k < |actions|
    requires GetsData(states, actions, i, j) && ConsumesAt(states, actions, i, k)
    requires forall n :: j <= n < k ==> KeepsChunks(states, i, n)
    ensures exists m :: j < m <= k && PlaysAt(states, actions, i, m)
  {
    RunOwesNothing(states, actions, i);
    PlayedAfterFilter(states, actions, i, j, k);
  }

  /** The source gets a chunk with a tag in the k-th step, and the device wants tags. */
  predicate GetsTag(states: seq<State>, actions: seq<Action>, i: nat, k: nat) {
    StepsAt(states, actions, i, k) && Fetches(states[k].outputs[i].source, states[k + 1].outputs[i].source) &&
    states[k + 1].outputs[i].sendTags && actions[k].choice.hasTag
  }

  /** The device is given the tag. */
  predicate SendsTag(states: seq<State>, i: nat, k: nat) {
    k < |states| && i < |states[k].outputs| && states[k].outputs[i].pc == Loop(SendingTag)
  }

  lemma {:induction false} OwedUntilSent(states: seq<State>, actions: seq<Action>, i: nat, j: nat, k: nat)
    requires j <= k < |actions| < |states| && AllStepsOk(states, actions, i)
    requires DebtAt(states, actions, i, j).tag && ConsumesAt(states, actions, i, k)
    requires forall n :: j <= n < k ==> KeepsChunks(states, i, n)
    ensures exists m :: j < m <= k && SendsTag(states, i, m)
    decreases k - j
  {
    assert StepOk(states, actions, i, k);
    if j < k && !SendsTag(states, i, j + 1) {
      assert KeepsChunks(states, i, j);
      OwedUntilSent(states, actions, i, j + 1, k);
    }
  }

  lemma SentAfterFetch(states: seq<State>, actions: seq<Action>, i: nat, j: nat, k: nat)
    requires j < k < |actions| < |states| && AllStepsOk(states, actions, i)
    requires GetsTag(states, actions, i, j) && ConsumesAt(states, actions, i, k)
    requires forall n :: j < n < k ==> KeepsChunks(states, i, n)
    ensures exists m :: j < m <= k && SendsTag(states, i, m)
  {
    OwedUntilSent(states, actions, i, j + 1, k);
  }

  /** A chunk with a tag is done with only after the tag was given to the device. */
  lemma TagIsSent(states: seq<State>, actions: seq<Action>, i: nat, j: nat, k: nat)
    requires IsRun(states, actions) && i < |states[0].outputs| && j < k < |actions|
    requires GetsTag(states, actions, i, j) && ConsumesAt(states, actions, i, k)
    requires forall n :: j < n < k ==> KeepsChunks(states, i, n)
    ensures exists m :: j < m <= k && SendsTag(states, i, m)
  {
    RunOwesNothing(states, actions, i);
    SentAfterFetch(states, actions, i, j, k);
  }
}
