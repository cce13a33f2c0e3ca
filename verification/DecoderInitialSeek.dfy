/**
 The initial seek: a decoder that is started at a position other than the beginning first
 answers SEEK, and has no chunk before that seek has ended.
 */
module DecoderInitialSeek {
  import opened Prelude
  import opened DecoderProtocol
  import opened DecoderTheorems

  // --- what has happened -----------------------------------------------------------------

  datatype Phase =
    | NotWanted   // no plugin runs, or it was started at the beginning of the song
    | Wanted      // it was started elsewhere, and has not asked for a command yet
    | Running     // it was told to seek
    | Over        // that seek has finished or failed, or it was skipped

  /** The last start and seek times that the player gave were positive; the last start asked for
      an essential initial seek; what has become of it; and whether the plugin has failed. */
  datatype History = History(start: bool, seek: bool, essential: bool, phase: Phase, error: bool)

  /** The plugin asks for a command; after an error, only a tag looks further. */
  predicate Asks(s: State, a: Action, error: bool) {
    s.dc.state == Decoding && (a == SubmitTag || ((a == GetCommand || a == SubmitData) && !error))
  }

  /** A plugin that asks can be told to seek. */
  predicate CanSeek(s: State) { s.dc.seekable && s.dc.command == NoCommand }

  function PhaseOf(positive: bool): Phase { if positive then Wanted else NotWanted }

  function Began(h: History, s: State): History {
    match s.dc.command
    case StartCommand => h.(phase := PhaseOf(h.start), error := false)
    case SeekCommand => h.(start := h.seek, phase := PhaseOf(h.seek), error := false)
    case _ => h
  }

  /** The history after an action: from what the threads do, not from the flags of the bridge. */
  function Recorded(h: History, s: State, a: Action): History {
    match a
    case Start(positive, essential) => h.(start := positive, essential := essential)
    case Seek(positive) => if s.dc.state == Stopped || !s.dc.seekable then h else h.(seek := positive)
    case Run(badPath) => if badPath then h else Began(h, s)
    case FinishRun => h.(phase := NotWanted, error := false)
    case Ready(_, convertFails) => h.(error := h.error || convertFails)
    case ReadFails => h.(error := true)
    case ConvertFails => h.(error := true)
    case NextPlugin => h.(error := false)
    case CommandFinished => if h.phase == Running then h.(phase := Over) else h
    case SeekError => if h.phase == Running then h.(phase := Over, error := h.error || h.essential) else h
    case _ =>
      if h.phase == Wanted && Asks(s, a, h.error) then h.(phase := if CanSeek(s) then Running else Over) else h
  }

  function HistoryAt(states: seq<State>, actions: seq<Action>, k: nat): History
    requires k <= |actions| < |states|
  {
    if k == 0 then
      History(states[0].dc.startPositive, states[0].dc.seekPositive, states[0].dc.essential, NotWanted, false)
    else Recorded(HistoryAt(states, actions, k - 1), states[k - 1], actions[k - 1])
  }

  // --- the flags of the bridge tell the phase ----------------------------------------------

  predicate HistoryOk(h: History, s: State) {
    && h.start == s.dc.startPositive && h.seek == s.dc.seekPositive && h.essential == s.dc.essential
    && (h.phase == Wanted <==> s.bridge.initialPending) && (h.phase == Running <==> s.bridge.initialRunning)
    && h.error == s.bridge.error
  }

  lemma RunIsRecorded(h: History, s: State, a: Action)
    requires Inv(s) && Enabled(s, a) && HistoryOk(h, s) && a.Run?
    ensures HistoryOk(Recorded(h, s, a), Step(s, a))
  {
  }

  lemma PlayerIsRecorded(h: History, s: State, a: Action)
    requires Enabled(s, a) && HistoryOk(h, s) && OfPlayer(a)
    ensures HistoryOk(Recorded(h, s, a), Step(s, a))
  {
  }

  lemma SeekIsRecorded(h: History, s: State, a: Action)
    requires Inv(s) && Enabled(s, a) && HistoryOk(h, s) && OfSeek(a)
    ensures HistoryOk(Recorded(h, s, a), Step(s, a))
  {
  }

  lemma FinishIsRecorded(h: History, s: State)
    requires s.pc.Finish? && HistoryOk(h, s)
    ensures HistoryOk(Recorded(h, s, FinishRun), Step(s, FinishRun))
  {
  }

  lemma FlushIsRecorded(h: History, s: State, empty: bool)
    requires s.pc.FlushLast? && HistoryOk(h, s)
    ensures HistoryOk(Recorded(h, s, FlushAtEnd(empty)), Step(s, FlushAtEnd(empty)))
  {
  }

  lemma PluginIsRecorded(h: History, s: State, a: Action)
    requires Enabled(s, a) && HistoryOk(h, s) && !OfPlayer(a) && !OfThread(a) && !OfSeek(a)
    ensures HistoryOk(Recorded(h, s, a), Step(s, a))
  {
  }

  lemma RecordedIsOk(h: History, s: State, a: Action)
    requires Inv(s) && Enabled(s, a) && HistoryOk(h, s)
    ensures HistoryOk(Recorded(h, s, a), Step(s, a))
  {
    if OfPlayer(a) {
      PlayerIsRecorded(h, s, a);
    } else if a.Run? {
      RunIsRecorded(h, s, a);
    } else if a.FinishRun? {
      FinishIsRecorded(h, s);
    } else if a.FlushAtEnd? {
      FlushIsRecorded(h, s, a.empty);
    } else if OfSeek(a) {
      SeekIsRecorded(h, s, a);
    } else {
      PluginIsRecorded(h, s, a);
    }
  }

  lemma {:induction false} HistoryIsOk(states: seq<State>, actions: seq<Action>, k: nat)
    requires IsRun(states, actions) && k < |states|
    ensures HistoryOk(HistoryAt(states, actions, k), states[k])
  {
    if k > 0 {
      HistoryIsOk(states, actions, k - 1);
      ReachableInv(states, actions, k - 1);
      RecordedIsOk(HistoryAt(states, actions, k - 1), states[k - 1], actions[k - 1]);
    }
  }

  // --- the theorems ----------------------------------------------------------------------

  /** What the plugin is told when it asks: STOP after an error, SEEK while the initial seek
      runs or if it begins now, otherwise exactly the pending command. */
  lemma AnswerToGetCommand(states: seq<State>, actions: seq<Action>, k: nat)
    requires IsRun(states, actions) && k < |actions| && actions[k] == GetCommand
    ensures states[k + 1].plugin.seen ==
            if HistoryAt(states, actions, k).error then StopCommand
            else if HistoryAt(states, actions, k + 1).phase == Running then SeekCommand
            else states[k].dc.command
  {
    HistoryIsOk(states, actions, k);
    HistoryIsOk(states, actions, k + 1);
    ReachableInv(states, actions, k);
  }

  /** SubmitData() and SubmitTag() go on to the chunks only without such an answer. */
  lemma AnswerToSubmit(states: seq<State>, actions: seq<Action>, k: nat)
    requires IsRun(states, actions) && k < |actions| && (actions[k] == SubmitData || actions[k] == SubmitTag)
    ensures var running := HistoryAt(states, actions, k + 1).phase == Running;
            var error := actions[k] == SubmitData && HistoryAt(states, actions, k).error;
            var command := states[k].dc.command;
            var pending := actions[k] == SubmitData && (command == StopCommand || command == SeekCommand);
            && states[k + 1].pc == (if running || error || pending then InPlugin else InSubmit)
            && (error ==> states[k + 1].plugin.seen == StopCommand)
            && (running && !error ==> states[k + 1].plugin.seen == SeekCommand)
            && (pending && !running && !error ==> states[k + 1].plugin.seen == command)
  {
    HistoryIsOk(states, actions, k);
    HistoryIsOk(states, actions, k + 1);
    ReachableInv(states, actions, k);
  }

  /** Before the initial seek has ended, there is no chunk. */
  lemma NoChunkBeforeInitialSeek(states: seq<State>, actions: seq<Action>, k: nat)
    requires IsRun(states, actions) && k < |states|
    requires HistoryAt(states, actions, k).phase == Wanted || HistoryAt(states, actions, k).phase == Running
    ensures states[k].bridge.current.None? && states[k].pipe == []
  {
    HistoryIsOk(states, actions, k);
    ReachableInv(states, actions, k);
  }

  /** The plugin is called in this step, for START with a positive start time or for a late SEEK
      with a positive seek time. */
  predicate BeginsElsewhere(states: seq<State>, actions: seq<Action>, j: nat)
    requires j < |actions| < |states|
  {
    && actions[j] == Run(false)
    && (|| (states[j].dc.command == StartCommand && HistoryAt(states, actions, j).start)
        || (states[j].dc.command == SeekCommand && HistoryAt(states, actions, j).seek))
  }

  predicate PhaseAt(states: seq<State>, actions: seq<Action>, k: nat, phase: Phase) {
    k <= |actions| < |states| && HistoryAt(states, actions, k).phase == phase
  }

  predicate AliveAt(states: seq<State>, k: nat) { k < |states| && Alive(states[k].pc) }

  predicate AsksAt(states: seq<State>, actions: seq<Action>, k: nat) {
    k < |actions| < |states| && Asks(states[k], actions[k], HistoryAt(states, actions, k).error)
  }

  /** The plugin says that a seek has finished or failed. */
  predicate EndsSeekAt(actions: seq<Action>, k: nat) {
    k < |actions| && (actions[k] == CommandFinished || actions[k] == SeekError)
  }

  /** While the bridge lives, the initial seek is wanted until the plugin asks, and then it runs
      until the plugin says that it has ended. */
  predicate PhaseStays(states: seq<State>, actions: seq<Action>, k: nat) {
    AliveAt(states, k) && AliveAt(states, k + 1) ==>
      && (PhaseAt(states, actions, k, Wanted) && !AsksAt(states, actions, k)
          ==> PhaseAt(states, actions, k + 1, Wanted))
      && (PhaseAt(states, actions, k, Running) && !EndsSeekAt(actions, k) ==> PhaseAt(states, actions, k + 1, Running))
  }

  lemma EachPhaseStays(states: seq<State>, actions: seq<Action>, k: nat)
    requires IsRun(states, actions) && k < |actions|
    ensures PhaseStays(states, actions, k)
  {
    assert Enabled(states[k], actions[k]) && states[k + 1] == Step(states[k], actions[k]);
  }

  ghost predicate PhasesStay(states: seq<State>, actions: seq<Action>) {
    forall k :: 0 <= k < |actions| ==> PhaseStays(states, actions, k)
  }

  lemma AllPhasesStay(states: seq<State>, actions: seq<Action>)
    requires IsRun(states, actions)
    ensures PhasesStay(states, actions)
  {
    forall k | 0 <= k < |actions| ensures PhaseStays(states, actions, k) {
      EachPhaseStays(states, actions, k);
    }
  }

  /** The same plugin runs from state j to state k. */
  ghost predicate AliveFrom(states: seq<State>, j: nat, k: nat) { forall i :: j <= i <= k ==> AliveAt(states, i) }

  lemma {:induction false} WantedUntilAsked(states: seq<State>, actions: seq<Action>, j: nat, k: nat)
    requires PhasesStay(states, actions) && j <= k <= |actions| && AliveFrom(states, j, k)
    requires PhaseAt(states, actions, j, Wanted) && forall i :: j <= i < k ==> !AsksAt(states, actions, i)
    ensures PhaseAt(states, actions, k, Wanted)
  {
    if j < k {
      WantedUntilAsked(states, actions, j, k - 1);
      assert PhaseStays(states, actions, k - 1);
    }
  }

  lemma {:induction false} RunningUntilEnded(states: seq<State>, actions: seq<Action>, j: nat, k: nat)
    requires PhasesStay(states, actions) && j <= k <= |actions| && AliveFrom(states, j, k)
    requires PhaseAt(states, actions, j, Running) && forall i :: j <= i < k ==> !EndsSeekAt(actions, i)
    ensures PhaseAt(states, actions, k, Running)
  {
    if j < k {
      RunningUntilEnded(states, actions, j, k - 1);
      assert PhaseStays(states, actions, k - 1);
    }
  }

  /** The plugin is asked to seek for the first time. */
  lemma AskedWhenWanted(states: seq<State>, actions: seq<Action>, k: nat)
    requires IsRun(states, actions) && k < |actions| && HistoryAt(states, actions, k).phase == Wanted
    requires AsksAt(states, actions, k) && CanSeek(states[k])
    ensures HistoryAt(states, actions, k + 1).phase == Running
    ensures states[k + 1].plugin.seen == SeekCommand && states[k + 1].pc == InPlugin
  {
    if actions[k] == GetCommand {
      AnswerToGetCommand(states, actions, k);
    } else {
      AnswerToSubmit(states, actions, k);
    }
  }

  lemma BeginsWanted(states: seq<State>, actions: seq<Action>, j: nat)
    requires IsRun(states, actions) && j < |actions| && BeginsElsewhere(states, actions, j)
    ensures PhaseAt(states, actions, j + 1, Wanted)
  {
  }

  /** A plugin that was started elsewhere is told to seek when it first asks, if it is seekable
      and no command is pending. */
  lemma FirstAnswerIsSeek(states: seq<State>, actions: seq<Action>, j: nat, k: nat)
    requires IsRun(states, actions) && j < k < |actions| && AliveFrom(states, j + 1, k)
    requires BeginsElsewhere(states, actions, j) && forall i :: j < i < k ==> !AsksAt(states, actions, i)
    requires AsksAt(states, actions, k) && CanSeek(states[k])
    ensures HistoryAt(states, actions, k + 1).phase == Running
    ensures states[k + 1].plugin.seen == SeekCommand && states[k + 1].pc == InPlugin
  {
    BeginsWanted(states, actions, j);
    AllPhasesStay(states, actions);
    WantedUntilAsked(states, actions, j + 1, k);
    AskedWhenWanted(states, actions, k);
  }

  /** From then on there is no chunk until the plugin says that the seek has ended. */
  lemma NoChunkUntilSeekEnds(states: seq<State>, actions: seq<Action>, j: nat, k: nat)
    requires IsRun(states, actions) && j <= k < |states| && AliveFrom(states, j, k)
    requires HistoryAt(states, actions, j).phase == Running && forall i :: j <= i < k ==> !EndsSeekAt(actions, i)
    ensures states[k].bridge.current.None? && states[k].pipe == []
  {
    AllPhasesStay(states, actions);
    RunningUntilEnded(states, actions, j, k);
    NoChunkBeforeInitialSeek(states, actions, k);
  }

  /** The plugin ends a seek.  If it was the initial one, nothing changes for the player; otherwise
      its SEEK is acknowledged, after a success without any chunk, after a failure with
      `seek_error` and with all chunks. */
  lemma SeekIsAnswered(states: seq<State>, actions: seq<Action>, k: nat)
    requires IsRun(states, actions) && EndsSeekAt(actions, k)
    ensures states[k + 1].plugin == Plugin(NoCommand, false)
    ensures HistoryAt(states, actions, k).phase == Running ==>
              states[k + 1].dc == states[k].dc && states[k + 1].acks == states[k].acks
    ensures HistoryAt(states, actions, k).phase != Running ==>
              && states[k].dc.command == SeekCommand && states[k + 1].dc.command == NoCommand
              && states[k + 1].dc.seekError == (actions[k] == SeekError)
    ensures HistoryAt(states, actions, k).phase != Running && actions[k] == CommandFinished ==>
              states[k + 1].pipe == [] && states[k + 1].bridge.current.None? && states[k + 1].acks == states[k].acks + 1
    ensures actions[k] == SeekError ==>
              states[k + 1].pipe == states[k].pipe && states[k + 1].bridge.current == states[k].bridge.current
  {
    HistoryIsOk(states, actions, k);
    ReachableInv(states, actions, k);
  }

  /** If the initial seek fails, decoding goes on from the beginning, unless the seek was
      essential; the player does not get to know. */
  lemma InitialSeekFails(states: seq<State>, actions: seq<Action>, k: nat)
    requires IsRun(states, actions) && k < |actions| && actions[k] == SeekError
    requires HistoryAt(states, actions, k).phase == Running
    ensures states[k + 1].dc == states[k].dc
    ensures HistoryAt(states, actions, k).essential ==> states[k + 1].bridge.error
    ensures states[k + 1].bridge.error ==>
              HistoryAt(states, actions, k).essential || HistoryAt(states, actions, k).error
  {
    HistoryIsOk(states, actions, k);
  }

  /** A song ends in the state STOP exactly if the plugin has succeeded and nothing has failed
      since it was tried, otherwise in the state ERROR. */
  lemma ErrorsAreReported(states: seq<State>, actions: seq<Action>, k: nat)
    requires IsRun(states, actions) && k < |actions| && actions[k] == FinishRun
    ensures states[k].pc.Finish?
    ensures states[k + 1].dc.state ==
            if states[k].pc.ok && !HistoryAt(states, actions, k).error then Stopped else Failed
  {
    HistoryIsOk(states, actions, k);
  }
}
