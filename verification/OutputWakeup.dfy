/**
 When output threads sleep: wake_cond, woken_for_play and in_playback_loop
 (src/output/Thread.cxx, src/output/Control.cxx), on top of the shared pipe.

 The shared pipe lets a thread step at any time.  Here a thread that waits steps only after it
 was notified, or because the condition variable woke it for no reason.  After a Push(), the
 player calls LockPlay() on one output after the other.
 */
module OutputWakeup {
  import opened Prelude
  import opened PipeCursor
  import opened OutputThread
  import opened SharedPipe
  import P = SharedPipeProofs
  import T = SharedPipeTheorems

  /** One output thread: does it wait in wake_cond, has it been notified since, and is
      woken_for_play set?  History: was a command pending when the wait began? */
  datatype Wake = Wake(waiting: bool, notified: bool, woken: bool, missed: bool)

  /** `playing` is the output whose LockPlay() the player calls next. */
  datatype World = World(s: State, wake: seq<Wake>, playing: Option<nat>)

  datatype Deed =
    | Player(playerChoice: PlayerChoice)
    | LockPlay
    | Thread(i: nat, choice: Choice)
    | Spurious(i: nat)              // wake_cond.wait() returns without a notification

  predicate Asleep(w: Wake) { w.waiting && !w.notified }

  /** in_playback_loop: InternalPlay() has had its first chunk and has not returned. */
  predicate InPlaybackLoop(pc: Pc) {
    (pc.Loop? && pc.loop != Filtering(false)) || pc == Leaving || pc == Closing(ToLeaving)
  }

  predicate Enabled(w: World, d: Deed) {
    && InRange(w.s) && |w.wake| == |w.s.outputs|
    && match d
       case Player(_) => w.playing.None?
       case LockPlay => w.playing.Some?
       case Thread(i, _) => i < |w.wake| && !Asleep(w.wake[i])
       case Spurious(i) => i < |w.wake| && w.wake[i].waiting
  }

  function Notify(w: Wake): Wake { if w.waiting then w.(notified := true) else w }

  /** The player's step includes a notify_one() for output i: CommandAsync(), and LockAllowPlay()
      if it is open. */
  predicate Notifies(s: State, s': State, i: nat)
    requires i < |s.outputs| && i < |s'.outputs|
  {
    (s'.outputs[i].command != s.outputs[i].command) || (s.player == Allowing(i) && s.outputs[i].open)
  }

  /** AudioOutputControl::LockPlay. */
  function Played(o: Output, w: Wake): Wake {
    if o.open && !InPlaybackLoop(o.pc) && !w.woken then Notify(w.(woken := true)) else w
  }

  /** Task() has found no command and nothing to play, and waits.  If that is because the first
      Fill() of InternalPlay() has failed, the mutex was free since Task() looked at `command`,
      and it does not look again. */
  predicate BeginsWait(o: Output, o': Output) {
    (o.pc.Task? && o.command == NONE && o'.pc.Task?) || o.pc == Closing(ToTask)
  }

  function AfterStep(o: Output, o': Output, w: Wake): Wake {
    if BeginsWait(o, o') then Wake(true, false, false, o'.command != NONE)
    else w.(waiting := false, notified := false, missed := false)
  }

  /** What the player's steps do to the pipe, and to the number of outputs. */
  lemma PlayerPipe(s: State, ch: PlayerChoice)
    requires InRange(s)
    ensures var s' := PlayerStep(s, ch);
            && |s'.outputs| == |s.outputs| && s.shifted <= s'.shifted
            && (s'.pushed == s.pushed || (|s'.pushed| == |s.pushed| + 1 && s.player == s'.player == Idle))
  {
  }

  function Do(w: World, d: Deed): World
    requires Enabled(w, d)
  {
    match d
    case Player(ch) =>
      var s' := PlayerStep(w.s, ch);
      PlayerPipe(w.s, ch);
      World(s',
            seq(|w.wake|, i requires 0 <= i < |w.wake| =>
                  if Notifies(w.s, s', i) then Notify(w.wake[i]) else w.wake[i]),
            if |s'.pushed| > |w.s.pushed| then Some(0) else None)
    case LockPlay =>
      var i := w.playing.value;
      if i < |w.wake| then w.(wake := w.wake[i := Played(w.s.outputs[i], w.wake[i])], playing := Some(i + 1))
      else w.(playing := None)
    case Thread(i, ch) =>
      var s' := OutputStep(w.s, i, ch);
      w.(s := s', wake := w.wake[i := AfterStep(w.s.outputs[i], s'.outputs[i], w.wake[i])])
    case Spurious(i) => w.(wake := w.wake[i := w.wake[i].(waiting := false, notified := false, missed := false)])
  }

  predicate Initially(w: World) {
    && Initial(w.s) && |w.wake| == |w.s.outputs| && w.playing.None?
    && forall i :: 0 <= i < |w.wake| ==> w.wake[i] == Wake(false, false, false, false)
  }

  predicate IsHistory(worlds: seq<World>, deeds: seq<Deed>) {
    && |worlds| == |deeds| + 1 && Initially(worlds[0])
    && forall k :: 0 <= k < |deeds| ==> Enabled(worlds[k], deeds[k]) && worlds[k + 1] == Do(worlds[k], deeds[k])
  }

  // --- what every step keeps -------------------------------------------------------------

  /** Task() would call InternalPlay(). */
  predicate Playable(o: Output) { o.open && o.allowPlay && !o.caughtInterrupted }

  /** Nothing has been pushed that the source has not fetched. */
  predicate CaughtUp(u: Source, pushed: seq<Address>, shifted: nat) {
    !u.current && P.NextPosition(u, shifted) >= |pushed|
  }

  /** The player has yet to call LockPlay() on output i. */
  predicate Promised(w: World, i: nat) { w.playing.Some? && w.playing.value <= i }

  /** A thread that sleeps has no command but one it has missed, and then it is closed; and it
      has nothing to play that it will not be told of. */
  predicate SleepOk(o: Output, w: Wake, pushed: seq<Address>, shifted: nat, promised: bool) {
    && (w.waiting ==> o.pc.Task?)
    && (w.missed ==> w.waiting && !o.open)
    && (Asleep(w) ==> !w.woken && (o.command != NONE <==> w.missed) &&
                      (Playable(o) ==> !o.source.current && (promised || CaughtUp(o.source, pushed, shifted))))
  }

  predicate SleepAt(w: World, i: nat)
    requires i < |w.wake| == |w.s.outputs|
  {
    SleepOk(w.s.outputs[i], w.wake[i], w.s.pushed, w.s.shifted, Promised(w, i))
  }

  predicate WakeInv(w: World) {
    && Inv(w.s) && |w.wake| == |w.s.outputs|
    && forall i :: 0 <= i < |w.wake| ==> SleepAt(w, i)
  }

  /** A player's step leaves output i alone, notifies it, or leaves it unable to play. */
  lemma PlayerOutput(s: State, ch: PlayerChoice, i: nat)
    requires Inv(s) && i < |s.outputs| == |PlayerStep(s, ch).outputs|
    ensures var s' := PlayerStep(s, ch);
            var o, o' := s.outputs[i], s'.outputs[i];
            o'.pc == o.pc && (o' == o || Notifies(s, s', i) || !Playable(o'))
  {
    assert P.OkAt(s, i);
  }

  lemma PlayerKeepsSleep(w: World, ch: PlayerChoice, i: nat)
    requires WakeInv(w) && Enabled(w, Player(ch)) && i < |w.wake|
    ensures SleepAt(Do(w, Player(ch)), i)
  {
    PlayerPipe(w.s, ch);
    PlayerOutput(w.s, ch, i);
    assert SleepAt(w, i);
  }

  lemma LockPlayKeepsSleep(w: World, i: nat)
    requires WakeInv(w) && Enabled(w, LockPlay) && i < |w.wake|
    ensures SleepAt(Do(w, LockPlay), i)
  {
    assert SleepAt(w, i);
  }

  /** A thread that begins to wait, and could play, has fetched all that was pushed. */
  lemma WaitsCaughtUp(o: Output, pushed: seq<Address>, shifted: nat, cleared: bool, ch: Choice)
    requires P.PipeOk(pushed, shifted) && OutputOk(o, pushed, shifted, cleared) && o.pc.Task? && o.command == NONE
    ensures var o' := Step(o, pushed[shifted..], shifted, ch);
            o'.pc.Task? ==> o'.command == NONE && (Playable(o') ==> CaughtUp(o'.source, pushed, shifted))
  {
    if Playable(o) && !FillDrop(o.source).current {
      P.FillDropKeeps(o.source, pushed, shifted);
      P.GetReturnsNext(FillDrop(o.source), pushed, shifted);
    }
  }

  lemma ThreadKeepsSleep(w: World, i: nat, ch: Choice, j: nat)
    requires WakeInv(w) && Enabled(w, Thread(i, ch)) && j < |w.wake|
    ensures SleepAt(Do(w, Thread(i, ch)), j)
  {
    assert SleepAt(w, j);
    if i == j && w.s.outputs[i].pc.Task? && w.s.outputs[i].command == NONE {
      assert P.OkAt(w.s, i);
      WaitsCaughtUp(w.s.outputs[i], w.s.pushed, w.s.shifted, Cleared(w.s.player, i), ch);
    }
  }

  lemma StepKeepsWakeInv(w: World, d: Deed)
    requires WakeInv(w) && Enabled(w, d)
    ensures WakeInv(Do(w, d))
  {
    var w' := Do(w, d);
    match d {
      case Player(ch) =>
        P.StepKeepsInv(w.s, ByPlayer(ch), w'.s);
        forall i | 0 <= i < |w'.wake| ensures SleepAt(w', i) {
          PlayerKeepsSleep(w, ch, i);
        }
      case LockPlay =>
        forall i | 0 <= i < |w'.wake| ensures SleepAt(w', i) {
          LockPlayKeepsSleep(w, i);
        }
      case Thread(i, ch) =>
        P.StepKeepsInv(w.s, ByOutput(i, ch), w'.s);
        forall j | 0 <= j < |w'.wake| ensures SleepAt(w', j) {
          ThreadKeepsSleep(w, i, ch, j);
        }
      case Spurious(i) =>
        forall j | 0 <= j < |w'.wake| ensures SleepAt(w', j) {
          assert SleepAt(w, j);
        }
    }
  }

  lemma {:induction false} HistoryKeepsWakeInv(worlds: seq<World>, deeds: seq<Deed>, k: nat)
    requires IsHistory(worlds, deeds) && k < |worlds|
    ensures WakeInv(worlds[k])
  {
    if k == 0 {
      P.RunKeepsInv([worlds[0].s], [], 0);
    } else {
      HistoryKeepsWakeInv(worlds, deeds, k - 1);
      StepKeepsWakeInv(worlds[k - 1], deeds[k - 1]);
    }
  }

  /** No chunk is overslept: if a thread sleeps while its output is open and allowed to play,
      there is no chunk that Get() would give it, unless the player is between Push() and its
      LockPlay(). */
  lemma NoChunkIsOverslept(worlds: seq<World>, deeds: seq<Deed>, k: nat, i: nat)
    requires IsHistory(worlds, deeds) && k < |worlds| && i < |worlds[k].wake| == |worlds[k].s.outputs|
    requires Asleep(worlds[k].wake[i])
    ensures InRange(worlds[k].s)
    ensures var w, o := worlds[k], worlds[k].s.outputs[i];
            Playable(o) && (o.source.current || Got(o.source.cursor, Pipe(w.s)).Some?)
            ==> w.playing.Some? && w.playing.value <= i
  {
    HistoryKeepsWakeInv(worlds, deeds, k);
    var w, o := worlds[k], worlds[k].s.outputs[i];
    assert SleepAt(w, i);
    assert P.OkAt(w.s, i);
    if Playable(o) {
      P.GetReturnsNext(o.source, w.s.pushed, w.s.shifted);
    }
  }

  // --- commands that are missed ------------------------------------------------------------

  /** A thread begins to wait after a failed Fill() although a command was sent meanwhile. */
  predicate Misses(w: World, d: Deed) {
    d.Thread? && d.i < |w.s.outputs| && w.s.outputs[d.i].pc == Closing(ToTask) && w.s.outputs[d.i].command != NONE
  }

  predicate NeverMisses(worlds: seq<World>, deeds: seq<Deed>, n: nat)
    requires n <= |deeds| < |worlds|
  {
    forall j :: 0 <= j < n ==> !Misses(worlds[j], deeds[j])
  }

  /** In this state, a thread sleeps with a command pending. */
  predicate Stuck(w: World, i: nat) {
    i < |w.wake| == |w.s.outputs| && Asleep(w.wake[i]) && w.s.outputs[i].command != NONE
  }

  lemma MissedNext(w: World, d: Deed, i: nat)
    requires WakeInv(w) && Enabled(w, d) && i < |w.wake| && !w.wake[i].missed && !Misses(w, d)
    ensures |Do(w, d).wake| == |w.wake| && !Do(w, d).wake[i].missed
  {
    if d.Thread? && d.i == i {
      assert P.OkAt(w.s, i);
      var o := w.s.outputs[i];
      if o.pc.Task? && o.command == NONE {
        WaitsCaughtUp(o, w.s.pushed, w.s.shifted, Cleared(w.s.player, i), d.choice);
      }
    }
  }

  lemma {:induction false} NothingMissed(worlds: seq<World>, deeds: seq<Deed>, k: nat, i: nat)
    requires IsHistory(worlds, deeds) && k < |worlds| && NeverMisses(worlds, deeds, k) && i < |worlds[k].wake|
    ensures !worlds[k].wake[i].missed
  {
    if k > 0 {
      HistoryKeepsWakeInv(worlds, deeds, k - 1);
      SameCount(worlds, deeds, k - 1);
      NothingMissed(worlds, deeds, k - 1, i);
      MissedNext(worlds[k - 1], deeds[k - 1], i);
    }
  }

  lemma SameCount(worlds: seq<World>, deeds: seq<Deed>, k: nat)
    requires IsHistory(worlds, deeds) && k < |deeds|
    ensures |worlds[k + 1].wake| == |worlds[k].wake|
  {
    assert worlds[k + 1] == Do(worlds[k], deeds[k]);
  }

  lemma MissingSticks(w: World, d: Deed)
    requires WakeInv(w) && Enabled(w, d) && Misses(w, d)
    ensures Stuck(Do(w, d), d.i)
  {
    assert P.OkAt(w.s, d.i);
  }

  /** No command is overslept, exactly in the histories in which no thread begins to wait after
      a failed Fill() with a command pending. */
  lemma CommandsAreAnswered(worlds: seq<World>, deeds: seq<Deed>)
    requires IsHistory(worlds, deeds)
    ensures (forall k, i: nat :: 0 <= k < |worlds| ==> !Stuck(worlds[k], i)) <==> NeverMisses(worlds, deeds, |deeds|)
  {
    if NeverMisses(worlds, deeds, |deeds|) {
      forall k, i: nat | 0 <= k < |worlds| ensures !Stuck(worlds[k], i) {
        HistoryKeepsWakeInv(worlds, deeds, k);
        if i < |worlds[k].wake| {
          NothingMissed(worlds, deeds, k, i);
          assert SleepAt(worlds[k], i);
        }
      }
    } else {
      var j :| 0 <= j < |deeds| && Misses(worlds[j], deeds[j]);
      HistoryKeepsWakeInv(worlds, deeds, j);
      MissingSticks(worlds[j], deeds[j]);
      assert Stuck(worlds[j + 1], deeds[j].i);
    }
  }

  /** A thread that sleeps with a command pending goes on sleeping, whatever the player and the
      other threads do: only a wake-up for no reason helps. */
  lemma StuckStays(w: World, d: Deed, i: nat)
    requires WakeInv(w) && Enabled(w, d) && Stuck(w, i) && d != Spurious(i)
    ensures Stuck(Do(w, d), i) && Do(w, d).s.outputs[i].command == w.s.outputs[i].command
  {
    assert SleepAt(w, i) && P.OkAt(w.s, i);
    if d.Player? {
      PlayerPipe(w.s, d.playerChoice);
      PlayerWaits(w.s, d.playerChoice, i);
    }
  }

  /** The player sends no command to an output that has one, and notifies no closed output. */
  lemma PlayerWaits(s: State, ch: PlayerChoice, i: nat)
    requires Inv(s) && i < |s.outputs| == |PlayerStep(s, ch).outputs| && !s.outputs[i].open &&
             s.outputs[i].command != NONE
    ensures !Notifies(s, PlayerStep(s, ch), i)
  {
    assert P.OkAt(s, i);
  }

  lemma ExtendHistory(worlds: seq<World>, deeds: seq<Deed>, d: Deed, w: World)
    returns (worlds': seq<World>, deeds': seq<Deed>)
    requires IsHistory(worlds, deeds) && Enabled(worlds[|worlds| - 1], d) && w == Do(worlds[|worlds| - 1], d)
    ensures IsHistory(worlds', deeds') && worlds'[|worlds'| - 1] == w
  {
    worlds', deeds' := worlds + [w], deeds + [d];
  }

  /** A world with one output. */
  function Single(o: Output, pushed: seq<Address>, player: PlayerPc, wake: Wake, playing: Option<nat>): World {
    World(State([o], pushed, 0, player), [wake], playing)
  }

  const AWAKE := Wake(false, false, false, false)
  const WOKEN := AWAKE.(woken := true)
  const ASKED := T.CLOSED.(command := OPEN, counts := Counts(1, 0, 0))
  const OPENING := ASKED.(counts := Counts(1, 1, 0), source := T.CLOSED_SOURCE.(open := true),
                          pc := Branch(OPEN, OpenDevice))
  const FETCHED := Source(true, Cursor(Some(7), false), true, false, false, [7], 0)

  lemma OutputIsAsked() returns (worlds: seq<World>, deeds: seq<Deed>)
    ensures IsHistory(worlds, deeds) && worlds[|worlds| - 1] == Single(ASKED, [], Issuing, AWAKE, None)
  {
    worlds, deeds := [Single(T.CLOSED, [], Idle, AWAKE, None)], [];
    worlds, deeds := ExtendHistory(worlds, deeds, Player(BeginCommands), Single(T.CLOSED, [], Issuing, AWAKE, None));
    worlds, deeds := ExtendHistory(worlds, deeds, Player(Send(0, OPEN)), Single(ASKED, [], Issuing, AWAKE, None));
  }

  lemma OutputBegins() returns (worlds: seq<World>, deeds: seq<Deed>)
    ensures IsHistory(worlds, deeds)
    ensures worlds[|worlds| - 1] == Single(OPENING, [], PlayerPc.Waiting(0, ForCommands), AWAKE, None)
  {
    var waiting := PlayerPc.Waiting(0, ForCommands);
    worlds, deeds := OutputIsAsked();
    worlds, deeds := ExtendHistory(worlds, deeds, Player(EndCommands), Single(ASKED, [], waiting, AWAKE, None));
    worlds, deeds := ExtendHistory(worlds, deeds, Thread(0, T.QUIET), Single(OPENING, [], waiting, AWAKE, None));
  }

  lemma OutputOpens() returns (worlds: seq<World>, deeds: seq<Deed>)
    ensures IsHistory(worlds, deeds) && worlds[|worlds| - 1] == Single(T.OPENED, [], Idle, AWAKE, None)
  {
    var waiting := PlayerPc.Waiting(0, ForCommands);
    var mixing := OPENING.(open := true, pc := Branch(OPEN, OpenMixer));
    worlds, deeds := OutputBegins();
    worlds, deeds := ExtendHistory(worlds, deeds, Thread(0, T.QUIET), Single(mixing, [], waiting, AWAKE, None));
    worlds, deeds := ExtendHistory(worlds, deeds, Thread(0, T.QUIET), Single(T.OPENED, [], waiting, AWAKE, None));
    worlds, deeds := ExtendHistory(worlds, deeds, Player(Proceed),
                                   Single(T.OPENED, [], PlayerPc.Waiting(1, ForCommands), AWAKE, None));
    worlds, deeds := ExtendHistory(worlds, deeds, Player(Proceed), Single(T.OPENED, [], Idle, AWAKE, None));
  }

  lemma OutputFilters() returns (worlds: seq<World>, deeds: seq<Deed>)
    ensures IsHistory(worlds, deeds)
    ensures worlds[|worlds| - 1] ==
            Single(T.OPENED.(source := FETCHED, pc := Loop(Filtering(false))), [7], Idle, WOKEN, None)
  {
    worlds, deeds := OutputOpens();
    worlds, deeds := ExtendHistory(worlds, deeds, Player(Push(7)), Single(T.OPENED, [7], Idle, AWAKE, Some(0)));
    worlds, deeds := ExtendHistory(worlds, deeds, LockPlay, Single(T.OPENED, [7], Idle, WOKEN, Some(1)));
    worlds, deeds := ExtendHistory(worlds, deeds, LockPlay, Single(T.OPENED, [7], Idle, WOKEN, None));
    var filtering := T.OPENED.(source := FETCHED, pc := Loop(Filtering(false)));
    worlds, deeds := ExtendHistory(worlds, deeds, Thread(0, T.QUIET), Single(filtering, [7], Idle, WOKEN, None));
  }

  const PAUSING := T.OPENED.(source := FETCHED, pc := Loop(Filtering(false)), command := PAUSE,
                             counts := Counts(2, 1, 1))

  lemma PauseIsSent() returns (worlds: seq<World>, deeds: seq<Deed>)
    ensures IsHistory(worlds, deeds) && worlds[|worlds| - 1] == Single(PAUSING, [7], Issuing, WOKEN, None)
  {
    var filtering := T.OPENED.(source := FETCHED, pc := Loop(Filtering(false)));
    worlds, deeds := OutputFilters();
    worlds, deeds := ExtendHistory(worlds, deeds, Player(BeginCommands), Single(filtering, [7], Issuing, WOKEN, None));
    worlds, deeds := ExtendHistory(worlds, deeds, Player(Send(0, PAUSE)), Single(PAUSING, [7], Issuing, WOKEN, None));
  }

  /** It happens: PAUSE is sent while the filter runs, and the filter fails. */
  lemma CommandIsMissed() returns (worlds: seq<World>, deeds: seq<Deed>)
    ensures IsHistory(worlds, deeds) && Stuck(worlds[|worlds| - 1], 0)
  {
    var closing := PAUSING.(open := false, source := FETCHED.(current := false), pc := Closing(ToTask));
    var asleep := closing.(source := SourceClose(closing.source), pc := Task);
    worlds, deeds := PauseIsSent();
    worlds, deeds := ExtendHistory(worlds, deeds, Thread(0, T.QUIET.(failed := true)),
                                   Single(closing, [7], Issuing, WOKEN, None));
    worlds, deeds := ExtendHistory(worlds, deeds, Thread(0, T.QUIET),
                                   Single(asleep, [7], Issuing, Wake(true, false, false, true), None));
  }
}
