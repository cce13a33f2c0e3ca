/**
 No lost wake-up, and no waiting with work to do, in every run of the event loop.
 */
module EventLoopTheorems {
  import opened TimerHistory
  import opened EventLoop
  import TimerWheel

  // --- what every step keeps -------------------------------------------------------------

  /** `busy` is what other threads are told about the loop. */
  predicate BusyOk(s: State) { s.shared.busy <==> s.pc != Waiting && s.pc != Woken }

  /** The wake descriptor is readable, or some thread is about to write to it. */
  predicate Armed(sh: Shared) { sh.readable || sh.writing != {} }

  predicate CalledFrom(pc: Pc, c: Caller) { pc.Calling? && pc.caller == c }

  /** The steps between reading the wake descriptor and the next look at `quit`. */
  predicate Draining(pc: Pc) {
    pc == WakeInject || pc == Dispatch || pc == Check || pc == Exited || CalledFrom(pc, FromWake)
  }

  predicate QuitOk(s: State) { s.shared.quit ==> Armed(s.shared) || Draining(s.pc) }

  predicate InjectOk(s: State) { s.pc == Waiting && s.shared.inject != [] ==> Armed(s.shared) }

  /** Steps of one iteration of Run(), up to the point where it waits. */
  function Phase(pc: Pc): nat {
    match pc
    case Top => 0
    case FineTimers => 1
    case ReadyTimers => 2
    case BucketTimers => 3
    case CheckTimers => 4
    case Deferred => 5
    case CheckDeferred => 6
    case Idle => 7
    case Inject => 8
    case Waiting => 9
    case Calling(c, _) =>
      (match c
       case FromFine => 1
       case FromReady => 2
       case FromBuckets => 3
       case FromDeferred => 5
       case FromInject => 8
       case _ => 10)
    case _ => 10
  }

  /** Until new work sets `again`, each phase leaves its queue empty. */
  predicate QueuesOk(phase: nat, quit: bool, w: Work) {
    && (3 <= phase <= 9 ==> w.ready == [])
    && (phase == 6 ==> quit || w.defer == [])
    && (7 <= phase <= 9 ==> w.defer == [])
    && (8 <= phase <= 9 ==> w.idle == [])
  }

  /** Waiting that long from now is not too long for any fine timer. */
  predicate FineCovered(fine: map<Id, int>, now: nat, timeout: int) {
    if timeout < 0 then fine == map[] else forall id :: id in fine ==> now + timeout <= fine[id]
  }

  predicate CoarseCovered(coarse: map<Id, int>, now: nat, timeout: int) {
    if timeout < 0 then coarse == map[]
    else forall id :: id in coarse ==> now + timeout <= coarse[id] + TimerWheel.RESOLUTION
  }

  predicate TimersOk(phase: nat, w: Work, t: Times) {
    && (2 <= phase <= 3 ==> FineCovered(w.fine, t.now, t.fineTimeout))
    && (4 <= phase <= 9 ==> FineCovered(w.fine, t.now, t.timeout) && CoarseCovered(w.coarse, t.now, t.timeout))
  }

  /** `again` is set, or there is nothing to do.  While waiting, other threads may set it. */
  predicate WorkOk(s: State) {
    (s.shared.again && s.pc != Waiting) ||
    (QueuesOk(Phase(s.pc), s.shared.quit, s.work) && TimersOk(Phase(s.pc), s.work, s.times))
  }

  /** Ready sockets are dispatched before the next iteration. */
  predicate SocketsOk(s: State) {
    && (Phase(s.pc) <= 9 || CalledFrom(s.pc, FromIdle) ==> s.work.sockets == [])
    && (s.pc == Check ==> s.shared.quit || s.work.sockets == [])
  }

  /** The timeout is the sooner of the two, and poll() is given its milliseconds. */
  predicate TimeoutOk(s: State) {
    && (4 <= Phase(s.pc) <= 9 ==> s.times.timeout == Sooner(s.times.fineTimeout, s.times.coarseTimeout))
    && (s.pc == Waiting ==> s.times.pollMs == ExportTimeoutMs(s.times.timeout))
  }

  predicate Inv(s: State) {
    BusyOk(s) && QuitOk(s) && InjectOk(s) && WorkOk(s) && SocketsOk(s) && TimeoutOk(s)
  }

  lemma InitiallyInv(s: State)
    requires Initial(s)
    ensures Inv(s)
  {
  }

  lemma WakesKept(s: State, a: Action)
    requires BusyOk(s) && QuitOk(s) && InjectOk(s) && Enabled(s, a)
    ensures var s' := Step(s, a); BusyOk(s') && QuitOk(s') && InjectOk(s')
  {
  }

  lemma DeedKeepsWork(s: State, d: Deed)
    requires WorkOk(s) && SocketsOk(s) && s.pc.Calling?
    ensures WorkOk(Step(s, Callback(d))) && SocketsOk(Step(s, Callback(d)))
  {
  }

  lemma LoopKeepsWork(s: State)
    requires WorkOk(s) && SocketsOk(s)
    ensures WorkOk(Step(s, Loop)) && SocketsOk(Step(s, Loop))
  {
  }

  lemma TimersKeepWork(s: State, a: Action)
    requires WorkOk(s) && SocketsOk(s) && Enabled(s, a) && (a.RunTimer? || a.TimersDone?)
    ensures WorkOk(Step(s, a)) && SocketsOk(Step(s, a))
  {
    if a.TimersDone? && s.pc == BucketTimers {
      SoonerIsMinimum(s.times.fineTimeout, a.sleep);
    }
  }

  lemma OthersKeepWork(s: State, a: Action)
    requires WorkOk(s) && SocketsOk(s) && Enabled(s, a) && !(a.Callback? || a.Loop? || a.RunTimer? || a.TimersDone?)
    ensures WorkOk(Step(s, a)) && SocketsOk(Step(s, a))
  {
  }

  lemma TimeoutKept(s: State, a: Action)
    requires TimeoutOk(s) && Enabled(s, a)
    ensures TimeoutOk(Step(s, a))
  {
  }

  lemma StepKeepsInv(s: State, a: Action)
    requires Inv(s) && Enabled(s, a)
    ensures Inv(Step(s, a))
  {
    WakesKept(s, a);
    TimeoutKept(s, a);
    match a {
      case Callback(d) => DeedKeepsWork(s, d);
      case Loop => LoopKeepsWork(s);
      case RunTimer(_) => TimersKeepWork(s, a);
      case TimersDone(_) => TimersKeepWork(s, a);
      case _ => OthersKeepWork(s, a);
    }
  }

  lemma {:induction false} RunKeepsInv(states: seq<State>, actions: seq<Action>, k: nat)
    requires IsRun(states, actions) && k < |states|
    ensures Inv(states[k])
  {
    if k == 0 {
      InitiallyInv(states[0]);
    } else {
      RunKeepsInv(states, actions, k - 1);
      StepKeepsInv(states[k - 1], actions[k - 1]);
    }
  }

  // --- the theorems ----------------------------------------------------------------------

  /** No lost wake-up: if the loop is blocked with an injected event or after Break(), it has
      been woken, or a thread is on its way to wake it. */
  lemma NoLostWakeup(states: seq<State>, actions: seq<Action>, k: nat)
    requires IsRun(states, actions) && k < |states|
    requires states[k].pc == Waiting && (states[k].shared.inject != [] || states[k].shared.quit)
    ensures states[k].shared.readable || exists t :: t in states[k].shared.writing
  {
    RunKeepsInv(states, actions, k);
  }

  /** The loop does not wait with work to do: all its queues are empty, and injected events
      are left only if `quit` was raised or they came later. */
  lemma WaitsWithoutWork(states: seq<State>, actions: seq<Action>, k: nat)
    requires IsRun(states, actions) && 0 < k < |states| && states[k].pc == Waiting
    ensures states[k].work.ready == states[k].work.defer == states[k].work.idle == states[k].work.sockets == []
    ensures states[k - 1].pc != Waiting ==> states[k].shared.inject == [] || states[k].shared.quit
  {
    RunKeepsInv(states, actions, k);
    RunKeepsInv(states, actions, k - 1);
  }

  /** The time handed to poll() is late by less than a millisecond for every fine timer, and
      by less than a millisecond and a RESOLUTION for every coarse one; it is infinite only
      if there are no timers. */
  lemma PollTimeoutInTime(states: seq<State>, actions: seq<Action>, k: nat)
    requires IsRun(states, actions) && k < |states| && states[k].pc == Waiting
    ensures var t, w := states[k].times, states[k].work;
            if t.pollMs == -1 then w.fine == w.coarse == map[] else
            && t.pollMs >= 0
            && (forall id :: id in w.fine ==> t.now + t.pollMs * NS_PER_MS < w.fine[id] + NS_PER_MS)
            && (forall id :: id in w.coarse ==>
                t.now + t.pollMs * NS_PER_MS < w.coarse[id] + TimerWheel.RESOLUTION + NS_PER_MS)
  {
    RunKeepsInv(states, actions, k);
    ExportRoundsUp(states[k].times.timeout);
  }

  /** The milliseconds of the sooner of two durations. */
  predicate RoundedMinimum(ms: int, fine: int, coarse: int) {
    if fine < 0 && coarse < 0 then ms == -1 else
    && (fine >= 0 ==> ms * NS_PER_MS < fine + NS_PER_MS)
    && (coarse >= 0 ==> ms * NS_PER_MS < coarse + NS_PER_MS)
    && ((fine >= 0 && fine <= ms * NS_PER_MS) || (coarse >= 0 && coarse <= ms * NS_PER_MS))
  }

  /** While the loop waits, poll() has been given the minimum of what the two timer structures
      returned in this iteration, negative meaning infinite, rounded up.  A callback that
      cancels a timer afterwards does not make the loop wait longer. */
  lemma PollTimeoutIsMinimum(states: seq<State>, actions: seq<Action>, k: nat)
    requires IsRun(states, actions) && k < |states| && states[k].pc == Waiting
    ensures var t := states[k].times;
            t.timeout == Sooner(t.fineTimeout, t.coarseTimeout) &&
              RoundedMinimum(t.pollMs, t.fineTimeout, t.coarseTimeout)
  {
    RunKeepsInv(states, actions, k);
    var t := states[k].times;
    SoonerIsMinimum(t.fineTimeout, t.coarseTimeout);
    ExportRoundsUp(t.timeout);
  }

  // --- where the two durations come from --------------------------------------------------

  /** Step j is the return of timers.Run() with this duration, at the time of state s. */
  ghost predicate FineReturns(states: seq<State>, actions: seq<Action>, j: nat, s: State)
    requires j < |actions| < |states|
  {
    && actions[j] == TimersDone(s.times.fineTimeout) && states[j].pc == FineTimers && states[j].times.now == s.times.now
    && FirstDueIn(states[j].work.fine, s.times.now, s.times.fineTimeout)
  }

  ghost predicate CoarseReturns(states: seq<State>, actions: seq<Action>, j: nat, s: State)
    requires j < |actions| < |states|
  {
    && actions[j] == TimersDone(s.times.coarseTimeout) && states[j].pc == BucketTimers &&
      states[j].times.now == s.times.now
    && CoarseSleep(states[j].work.coarse, s.times.now, s.times.coarseTimeout)
  }

  /** From step j to state k the loop has been past the given phase of one iteration. */
  predicate SameIteration(states: seq<State>, j: nat, k: nat, phase: nat)
    requires k < |states|
  {
    forall i :: j < i <= k ==> phase <= Phase(states[i].pc) <= 9
  }

  /** Between two returns, the durations stay as they are. */
  lemma TimesKept(s: State, a: Action)
    requires Enabled(s, a)
    ensures 2 <= Phase(Step(s, a).pc) <= 9 && !(a.TimersDone? && s.pc == FineTimers) ==>
              2 <= Phase(s.pc) <= 9 && Step(s, a).times.now == s.times.now &&
                Step(s, a).times.fineTimeout == s.times.fineTimeout
    ensures 4 <= Phase(Step(s, a).pc) <= 9 && !a.TimersDone? ==>
              4 <= Phase(s.pc) <= 9 && Step(s, a).times.coarseTimeout == s.times.coarseTimeout
  {
  }

  lemma {:induction false} FineReturned(states: seq<State>, actions: seq<Action>, k: nat) returns (j: nat)
    requires IsRun(states, actions) && k < |states| && 2 <= Phase(states[k].pc) <= 9
    ensures j < k && FineReturns(states, actions, j, states[k]) && SameIteration(states, j, k, 2)
  {
    TimesKept(states[k - 1], actions[k - 1]);
    if actions[k - 1].TimersDone? && states[k - 1].pc == FineTimers {
      j := k - 1;
    } else {
      j := FineReturned(states, actions, k - 1);
    }
  }

  lemma {:induction false} CoarseReturned(states: seq<State>, actions: seq<Action>, k: nat) returns (j: nat)
    requires IsRun(states, actions) && k < |states| && 4 <= Phase(states[k].pc) <= 9
    ensures j < k && CoarseReturns(states, actions, j, states[k]) && SameIteration(states, j, k, 4)
  {
    TimesKept(states[k - 1], actions[k - 1]);
    if actions[k - 1].TimersDone? {
      j := k - 1;
    } else {
      j := CoarseReturned(states, actions, k - 1);
    }
  }

  /** While the loop waits, the two durations are what timers.Run() and then coarse_timers.Run()
      returned in this iteration, for the timers they had then and the time that is still
      current. */
  lemma TimeoutsWereReturned(states: seq<State>, actions: seq<Action>, k: nat)
    requires IsRun(states, actions) && k < |states| && states[k].pc == Waiting
    ensures exists f, c :: 0 <= f < c < k && ReturnedAt(states, actions, k, f, c)
  {
    var f := FineReturned(states, actions, k);
    var c := CoarseReturned(states, actions, k);
    assert Phase(states[f].pc) == 1;
    assert ReturnedAt(states, actions, k, f, c);
  }

  ghost predicate ReturnedAt(states: seq<State>, actions: seq<Action>, k: nat, f: nat, c: nat)
    requires f < |actions| && c < |actions| && k < |states| == |actions| + 1
  {
    && FineReturns(states, actions, f, states[k]) && SameIteration(states, f, k, 2)
    && CoarseReturns(states, actions, c, states[k]) && SameIteration(states, c, k, 4)
  }

  predicate Breaks(a: Action) { a.Break? || a == Callback(LoopBreak) }

  lemma QuitStep(s: State, a: Action)
    requires Enabled(s, a)
    ensures Step(s, a).shared.quit <==> s.shared.quit || Breaks(a)
    ensures Step(s, a).pc == Exited ==> s.pc == Exited || s.shared.quit
    ensures Step(s, a).pc == Top && s.pc != Top ==> !s.shared.quit
  {
  }

  /** Run() returns only after Break(). */
  lemma {:induction false} ExitsOnlyByBreak(states: seq<State>, actions: seq<Action>, k: nat)
    requires IsRun(states, actions) && k < |states|
    ensures states[k].pc == Exited ==> states[k].shared.quit
    ensures states[k].shared.quit <==> exists j :: 0 <= j < k && Breaks(actions[j])
  {
    if k > 0 {
      ExitsOnlyByBreak(states, actions, k - 1);
      QuitStep(states[k - 1], actions[k - 1]);
    }
  }

  lemma TopOnlyWithoutQuit(states: seq<State>, actions: seq<Action>, k: nat)
    requires IsRun(states, actions) && k < |actions|
    ensures states[k].shared.quit && states[k].pc != Top ==> states[k + 1].pc != Top
  {
    QuitStep(states[k], actions[k]);
  }

  /** Once Break() was called, no further iteration begins. */
  lemma {:induction false} NoIterationAfterBreak(states: seq<State>, actions: seq<Action>, j: nat, k: nat)
    requires IsRun(states, actions) && j < k < |states| && Breaks(actions[j]) && states[j + 1].pc != Top
    ensures states[k].pc != Top
  {
    if j + 1 < k {
      NoIterationAfterBreak(states, actions, j, k - 1);
      ExitsOnlyByBreak(states, actions, k - 1);
      TopOnlyWithoutQuit(states, actions, k - 1);
    }
  }

  /** The action adds an event to the loop. */
  predicate Adds(s: State, a: Action) {
    match a
    case AddInject(_, id) => id !in s.shared.inject
    case Callback(d) =>
      d.AddDefer? || d.AddIdle? || d.InsertFine? || d.InsertCoarse? || (d.LoopAddInject? && d.id !in s.shared.inject)
    case _ => false
  }

  lemma AgainStep(s: State, a: Action)
    requires Enabled(s, a) && Step(s, a).shared.again && Step(s, a).pc != Top
    ensures s.pc != Top && (s.shared.again || Adds(s, a))
  {
  }

  /** The loop goes round again instead of waiting only if something was added in this very
      iteration. */
  lemma {:induction false} AgainMeansWork(states: seq<State>, actions: seq<Action>, k: nat) returns (j: nat)
    requires IsRun(states, actions) && k < |states| && states[k].shared.again && states[k].pc != Top
    ensures j < k && Adds(states[j], actions[j]) && forall i :: j < i <= k ==> states[i].pc != Top
  {
    AgainStep(states[k - 1], actions[k - 1]);
    if Adds(states[k - 1], actions[k - 1]) {
      j := k - 1;
    } else {
      j := AgainMeansWork(states, actions, k - 1);
    }
  }

  lemma ExtendRun(states: seq<State>, actions: seq<Action>, a: Action, s': State)
    returns (states': seq<State>, actions': seq<Action>)
    requires IsRun(states, actions) && Enabled(states[|states| - 1], a) && s' == Step(states[|states| - 1], a)
    ensures IsRun(states', actions') && states'[|states'| - 1] == s'
  {
    states', actions' := states + [s'], actions + [a];
  }

  const ENTERED := State(Top, Shared([], true, false, false, false, {}), Work([], [], [], [], map[], map[]),
                         Times(0, -1, -1, -1, -1))
  const WAITING := ENTERED.(pc := Waiting, shared := ENTERED.shared.(busy := false))

  lemma LoopRunsTimers() returns (states: seq<State>, actions: seq<Action>)
    ensures IsRun(states, actions) && states[|states| - 1] == ENTERED.(pc := CheckTimers)
  {
    states, actions := ExtendRun([ENTERED], [], Loop, ENTERED.(pc := FineTimers));
    states, actions := ExtendRun(states, actions, TimersDone(-1), ENTERED.(pc := ReadyTimers));
    states, actions := ExtendRun(states, actions, Loop, ENTERED.(pc := BucketTimers));
    states, actions := ExtendRun(states, actions, TimersDone(-1), ENTERED.(pc := CheckTimers));
  }

  /** A loop without work goes through all phases, and waits. */
  lemma LoopWaits() returns (states: seq<State>, actions: seq<Action>)
    ensures IsRun(states, actions) && states[|states| - 1] == WAITING
  {
    states, actions := LoopRunsTimers();
    states, actions := ExtendRun(states, actions, Loop, ENTERED.(pc := Deferred));
    states, actions := ExtendRun(states, actions, Loop, ENTERED.(pc := CheckDeferred));
    states, actions := ExtendRun(states, actions, Loop, ENTERED.(pc := Idle));
    states, actions := ExtendRun(states, actions, Loop, ENTERED.(pc := Inject));
    states, actions := ExtendRun(states, actions, Loop, WAITING);
  }

  const INJECTED := Shared([5], false, false, true, true, {})
  const READY := ENTERED.work.(sockets := [WAKE])

  lemma LoopIsWoken() returns (states: seq<State>, actions: seq<Action>)
    ensures IsRun(states, actions)
    ensures states[|states| - 1] == ENTERED.(pc := Woken, shared := INJECTED, work := READY)
  {
    states, actions := LoopWaits();
    states, actions := ExtendRun(states, actions, AddInject(2, 5),
                                 WAITING.(shared := INJECTED.(readable := false, writing := {2})));
    states, actions := ExtendRun(states, actions, Write(2), WAITING.(shared := INJECTED));
    states, actions := ExtendRun(states, actions, WakeUp([WAKE], 0),
                                 ENTERED.(pc := Woken, shared := INJECTED, work := READY));
  }

  /** Another thread injects an event: the loop wakes up, and calls it. */
  lemma LoopWakes() returns (states: seq<State>, actions: seq<Action>)
    ensures IsRun(states, actions)
    ensures states[|states| - 1] == ENTERED.(pc := Calling(FromWake, 5), shared := ENTERED.shared.(again := true))
  {
    var busy := INJECTED.(busy := true);
    states, actions := LoopIsWoken();
    states, actions := ExtendRun(states, actions, Loop, ENTERED.(pc := Dispatch, shared := busy, work := READY));
    states, actions := ExtendRun(states, actions, Loop, ENTERED.(pc := ReadWake, shared := busy));
    states, actions := ExtendRun(states, actions, Loop,
                                 ENTERED.(pc := WakeInject, shared := busy.(readable := false)));
    states, actions := ExtendRun(states, actions, Loop,
                                 ENTERED.(pc := Calling(FromWake, 5), shared := ENTERED.shared.(again := true)));
  }

  /** The event breaks the loop, and Run() returns. */
  lemma LoopExits() returns (states: seq<State>, actions: seq<Action>)
    ensures IsRun(states, actions) && states[|states| - 1].pc == Exited
  {
    var quit := ENTERED.shared.(again := true, quit := true, readable := true);
    states, actions := LoopWakes();
    states, actions := ExtendRun(states, actions, Callback(LoopBreak),
                                 ENTERED.(pc := Calling(FromWake, 5), shared := quit));
    states, actions := ExtendRun(states, actions, Return, ENTERED.(pc := WakeInject, shared := quit));
    states, actions := ExtendRun(states, actions, Loop, ENTERED.(pc := Dispatch, shared := quit));
    states, actions := ExtendRun(states, actions, Loop, ENTERED.(pc := Check, shared := quit));
    states, actions := ExtendRun(states, actions, Loop, ENTERED.(pc := Exited, shared := quit));
  }

  /** What TimerWheel.Run() returns is what the loop expects of its coarse timers. */
  lemma WheelSleeps(place: map<Id, TimerWheel.Place>, due: map<Id, int>, now: nat, sleep: int)
    requires forall id :: id in place ==> id in due
    requires sleep == -1 <==> forall id :: id in place ==> !place[id].Bucket?
    requires sleep != -1 ==> sleep > 0 && TimerWheel.SoonEnough(place, due, now + sleep)
    ensures CoarseSleep(map id | id in place && place[id].Bucket? :: due[id], now, sleep)
  {
    var coarse := map id | id in place && place[id].Bucket? :: due[id];
    assert coarse == map[] <==> forall id :: id in place ==> id !in coarse;
  }
}
