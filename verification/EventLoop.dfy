/**
 The event loop (src/event/Loop.cxx): one thread inside Run(), any number of others calling
 AddInject(), RemoveInject() and Break().

 Each step is what one thread does between two points where another thread can be seen:
 a critical section of `mutex`, one access to `quit`, one access to the wake descriptor.
 A callback is a sequence of steps of its own; what it does is arbitrary.
 */
module EventLoop {
  import opened TimerHistory
  import TimerWheel

  type Thread = nat

  /** Where Run() calls callbacks from. */
  datatype Caller = FromFine | FromReady | FromBuckets | FromDeferred | FromIdle | FromInject | FromSocket | FromWake

  datatype Pc =
    | Top             // again = false
    | FineTimers      // timers.Run()
    | ReadyTimers     // coarse_timers.Run(): the ready list
    | BucketTimers    // coarse_timers.Run(): the buckets
    | CheckTimers     // if (quit) break
    | Deferred        // RunDeferred()
    | CheckDeferred   // if (quit) break
    | Idle            // RunOneIdle()
    | Inject          // HandleInject(), and the decision to wait
    | Waiting         // blocked in Wait()
    | Woken           // busy = true
    | Dispatch        // while (!ready_sockets.empty() && !quit)
    | ReadWake        // OnSocketReady(): wake_fd.Read()
    | WakeInject      // OnSocketReady(): HandleInject()
    | Check           // while (!quit)
    | Calling(caller: Caller, id: Id)  // the callback of an event
    | Exited

  /** What other threads see.  `writing` are the threads that have left the critical section
      of AddInject(), or set `quit` in Break(), and have not yet called wake_fd.Write(). */
  datatype Shared = Shared(inject: seq<Id>, busy: bool, quit: bool, again: bool, readable: bool, writing: set<Thread>)

  /** The queues that only the loop thread touches.  WAKE stands for wake_event. */
  datatype Work = Work(defer: seq<Id>, idle: seq<Id>, ready: seq<Id>, sockets: seq<Id>, fine: map<Id, int>,
                       coarse: map<Id, int>)

  /** The cached clock, what the two timer structures returned, the sooner of the two, and the
      milliseconds handed to poll(). */
  datatype Times = Times(now: nat, fineTimeout: int, coarseTimeout: int, timeout: int, pollMs: int)

  datatype State = State(pc: Pc, shared: Shared, work: Work, times: Times)

  const WAKE: Id := 0

  /** What a callback may do to the loop. */
  datatype Deed =
    | AddDefer(id: Id)
    | AddIdle(id: Id)
    | InsertFine(id: Id, due: int)
    | InsertCoarse(id: Id, due: int)
    | CancelTimer(id: Id)
    | CancelDefer(k: nat)
    | CancelIdle(k: nat)
    | CancelReady(k: nat)
    | CancelSocket(k: nat)
    | LoopAddInject(id: Id)
    | LoopRemoveInject(k: nat)
    | LoopBreak

  datatype Action =
    | Loop                                          // the next step of Run(), where it has no choice
    | RunTimer(id: Id)                              // a timer is due, and its callback is called
    | TimersDone(sleep: int)                        // what timers.Run() or coarse_timers.Run() returns
    | WakeUp(ready: seq<Id>, time: nat)             // ReadEvents() returns
    | Callback(deed: Deed)
    | Return                                        // the callback returns
    | AddInject(thread: Thread, id: Id)
    | RemoveInject(thread: Thread, k: nat)
    | Break(thread: Thread)
    | Write(thread: Thread)

  function Drop<T>(s: seq<T>, k: nat): seq<T> { if k < |s| then s[..k] + s[k + 1..] else s }

  // --- timeouts --------------------------------------------------------------------------

  /** The result of TimerWheel::Run. */
  ghost predicate CoarseSleep(coarse: map<Id, int>, now: nat, sleep: int) {
    && (sleep == -1 <==> coarse == map[])
    && (sleep != -1 ==> sleep > 0 && forall id :: id in coarse ==> now + sleep <= coarse[id] + TimerWheel.RESOLUTION)
  }

  /** HandleTimers: the sooner of the two. */
  function Sooner(fine: int, coarse: int): int {
    if fine < 0 || (coarse >= 0 && coarse < fine) then coarse else fine
  }

  /** A negative duration is infinite, so this is a minimum. */
  lemma SoonerIsMinimum(fine: int, coarse: int)
    ensures Sooner(fine, coarse) < 0 <==> fine < 0 && coarse < 0
    ensures Sooner(fine, coarse) >= 0 ==>
              && (fine >= 0 ==> Sooner(fine, coarse) <= fine)
              && (coarse >= 0 ==> Sooner(fine, coarse) <= coarse)
              && (Sooner(fine, coarse) == fine || Sooner(fine, coarse) == coarse)
  {
  }

  const NS_PER_MS: nat := 1_000_000

  /** duration_cast truncates toward zero. */
  function DurationCastMs(ns: int): int { if ns >= 0 then ns / NS_PER_MS else -((-ns) / NS_PER_MS) }

  function ExportTimeoutMs(timeout: int): int {
    if timeout >= 0 then DurationCastMs(timeout + (NS_PER_MS - 1)) else -1
  }

  /** The loop never wakes up before the timeout, and less than a millisecond after it. */
  lemma ExportRoundsUp(timeout: int)
    ensures timeout < 0 <==> ExportTimeoutMs(timeout) == -1
    ensures timeout >= 0 ==> timeout <= ExportTimeoutMs(timeout) * NS_PER_MS < timeout + NS_PER_MS
  {
    if timeout >= 0 {
      var q, r := (timeout + (NS_PER_MS - 1)) / NS_PER_MS, (timeout + (NS_PER_MS - 1)) % NS_PER_MS;
      assert q * NS_PER_MS + r == timeout + (NS_PER_MS - 1);
    }
  }

  // --- steps -----------------------------------------------------------------------------

  /** The part of AddInject() inside the critical section. */
  function Injected(sh: Shared, t: Thread, id: Id): Shared {
    if id in sh.inject then sh else
    sh.(inject := sh.inject + [id], again := true,
        writing := if !sh.busy && sh.inject == [] then sh.writing + {t} else sh.writing)
  }

  function Deeds(sh: Shared, d: Deed): Shared {
    match d
    case AddDefer(_) => sh.(again := true)
    case AddIdle(_) => sh.(again := true)
    case InsertFine(_, _) => sh.(again := true)
    case InsertCoarse(_, _) => sh.(again := true)
    case LoopAddInject(id) =>
      if id in sh.inject then sh else
      sh.(inject := sh.inject + [id], again := true, readable := sh.readable || (!sh.busy && sh.inject == []))
    case LoopRemoveInject(k) => sh.(inject := Drop(sh.inject, k))
    case LoopBreak => if sh.quit then sh else sh.(quit := true, readable := true)
    case _ => sh
  }

  function DeedsWork(w: Work, now: nat, d: Deed): Work {
    match d
    case AddDefer(id) => w.(defer := w.defer + [id])
    case AddIdle(id) => w.(idle := [id] + w.idle)
    case InsertFine(id, due) => w.(fine := w.fine[id := due])
    case InsertCoarse(id, due) => if due > now then w.(coarse := w.coarse[id := due]) else w.(ready := w.ready + [id])
    case CancelTimer(id) => w.(fine := w.fine - {id}, coarse := w.coarse - {id})
    case CancelDefer(k) => w.(defer := Drop(w.defer, k))
    case CancelIdle(k) => w.(idle := Drop(w.idle, k))
    case CancelReady(k) => w.(ready := Drop(w.ready, k))
    case CancelSocket(k) => w.(sockets := Drop(w.sockets, k))
    case _ => w
  }

  /** Where Run() goes on after a callback. */
  function Resume(c: Caller): Pc {
    match c
    case FromFine => FineTimers
    case FromReady => ReadyTimers
    case FromBuckets => BucketTimers
    case FromDeferred => Deferred
    case FromIdle => Check
    case FromInject => Inject
    case FromSocket => Dispatch
    case FromWake => WakeInject
  }

  /** HandleInject(): pop an event and call it, unless there is none or the loop must quit. */
  predicate Injects(sh: Shared) { sh.inject != [] && !sh.quit }

  function PopInject(s: State, c: Caller): State
    requires s.shared.inject != []
  {
    s.(shared := s.shared.(inject := s.shared.inject[1..]), pc := Calling(c, s.shared.inject[0]))
  }

  function DispatchStep(s: State): State {
    if s.work.sockets == [] || s.shared.quit then s.(pc := Check) else
    s.(work := s.work.(sockets := s.work.sockets[1..]),
       pc := if s.work.sockets[0] == WAKE then ReadWake else Calling(FromSocket, s.work.sockets[0]))
  }

  function InjectStep(s: State): State {
    if Injects(s.shared) then PopInject(s, FromInject) else
    if s.shared.again then s.(pc := Check) else
    s.(shared := s.shared.(busy := false), times := s.times.(pollMs := ExportTimeoutMs(s.times.timeout)), pc := Waiting)
  }

  function DeferredStep(s: State): State {
    if s.work.defer == [] || s.shared.quit then s.(pc := CheckDeferred) else
    s.(work := s.work.(defer := s.work.defer[1..]), pc := Calling(FromDeferred, s.work.defer[0]))
  }

  /** The steps of Run() that involve no choice. */
  function LoopStep(s: State): State {
    match s.pc
    case Top => s.(shared := s.shared.(again := false), pc := FineTimers)
    case ReadyTimers =>
      if s.work.ready == [] then s.(pc := BucketTimers) else
      s.(work := s.work.(ready := s.work.ready[1..]), pc := Calling(FromReady, s.work.ready[0]))
    case CheckTimers => s.(pc := if s.shared.quit then Exited else Deferred)
    case Deferred => DeferredStep(s)
    case CheckDeferred => s.(pc := if s.shared.quit then Exited else Idle)
    case Idle =>
      if s.work.idle == [] then s.(pc := Inject) else
      s.(work := s.work.(idle := s.work.idle[1..]), pc := Calling(FromIdle, s.work.idle[0]))
    case Inject => InjectStep(s)
    case Woken => s.(shared := s.shared.(busy := true), pc := Dispatch)
    case Dispatch => DispatchStep(s)
    case ReadWake => s.(shared := s.shared.(readable := false), pc := WakeInject)
    case WakeInject => if Injects(s.shared) then PopInject(s, FromWake) else s.(pc := Dispatch)
    case Check => s.(pc := if s.shared.quit then Exited else Top)
    case _ => s
  }

  /** Can the action happen now? */
  ghost predicate Enabled(s: State, a: Action) {
    match a
    case Loop => true
    case RunTimer(id) =>
      (s.pc == FineTimers && id in s.work.fine && s.work.fine[id] <= s.times.now) ||
      (s.pc == BucketTimers && id in s.work.coarse && s.work.coarse[id] <= s.times.now)
    case TimersDone(sleep) =>
      (s.pc == FineTimers && FirstDueIn(s.work.fine, s.times.now, sleep)) ||
      (s.pc == BucketTimers && CoarseSleep(s.work.coarse, s.times.now, sleep))
    case WakeUp(ready, time) => s.pc == Waiting && time >= s.times.now && (WAKE in ready ==> s.shared.readable)
    case Callback(_) => s.pc.Calling?
    case Return => s.pc.Calling?
    case AddInject(t, _) => t !in s.shared.writing
    case RemoveInject(t, _) => t !in s.shared.writing
    case Break(t) => t !in s.shared.writing
    case Write(t) => t in s.shared.writing
  }

  function TimerStep(s: State, id: Id): State {
    if s.pc == FineTimers then s.(work := s.work.(fine := s.work.fine - {id}), pc := Calling(FromFine, id))
    else s.(work := s.work.(coarse := s.work.coarse - {id}), pc := Calling(FromBuckets, id))
  }

  function DoneStep(s: State, sleep: int): State {
    if s.pc == FineTimers then s.(times := s.times.(fineTimeout := sleep), pc := ReadyTimers)
    else s.(times := s.times.(coarseTimeout := sleep, timeout := Sooner(s.times.fineTimeout, sleep)), pc := CheckTimers)
  }

  /** A step of a thread other than the loop's. */
  function ThreadStep(sh: Shared, a: Action): Shared {
    match a
    case AddInject(t, id) => Injected(sh, t, id)
    case RemoveInject(_, k) => sh.(inject := Drop(sh.inject, k))
    case Break(t) => if sh.quit then sh else sh.(quit := true, writing := sh.writing + {t})
    case Write(t) => sh.(readable := true, writing := sh.writing - {t})
    case _ => sh
  }

  function Step(s: State, a: Action): State {
    match a
    case Loop => LoopStep(s)
    case RunTimer(id) => TimerStep(s, id)
    case TimersDone(sleep) => DoneStep(s, sleep)
    case WakeUp(ready, time) =>
      s.(work := s.work.(sockets := s.work.sockets + ready), times := s.times.(now := time), pc := Woken)
    case Callback(d) => s.(shared := Deeds(s.shared, d), work := DeedsWork(s.work, s.times.now, d))
    case Return => if s.pc.Calling? then s.(pc := Resume(s.pc.caller)) else s
    case _ => s.(shared := ThreadStep(s.shared, a))
  }

  /** Run() is entered with `busy` set and `quit` not. */
  predicate Initial(s: State) {
    s.pc == Top && s.shared.busy && !s.shared.quit && s.work.sockets == []
  }

  ghost predicate IsRun(states: seq<State>, actions: seq<Action>) {
    && |states| == |actions| + 1 && Initial(states[0])
    && forall k :: 0 <= k < |actions| ==> Enabled(states[k], actions[k]) && states[k + 1] == Step(states[k], actions[k])
  }
}
