/**
 The idle mask hand-off (src/event/MaskMonitor.cxx) on top of the event loop: any thread may
 add flags to a mask, and an InjectEvent of the loop delivers them.

 Each step is one of the event loop, or one access to the mask.  A mask is a set of flags.
 */
module MaskMonitor {
  import opened Prelude
  import L = EventLoop
  import I = EventLoopEvents
  import T = EventLoopTheorems

  type Mask = set<nat>
  type Thread = L.Thread

  /** The loop's own thread, and the InjectEvent of the monitor. */
  const LOOP: Thread := 0
  const EVENT: nat := 1

  /** `scheduling` are the threads between fetch_or() returning zero and AddInject().
      `calling` says that the loop has called RunDeferred(), which has not yet exchanged the
      mask.  `asked` and `delivered` collect the arguments of OrMask() and of the callback. */
  datatype State = State(
    loop: L.State, pending: Mask, scheduling: set<Thread>, calling: bool, asked: Mask, delivered: Mask)

  datatype Action =
    | OrMask(thread: Thread, mask: Mask)
    | Schedule(thread: Thread)
    | Cancel(thread: Thread)      // MaskMonitor::Cancel()
    | Other(action: L.Action)     // anything else in the event loop
    | Deliver                     // RunDeferred() exchanges the mask

  /** The action is one of another thread, which is not inside OrMask(). */
  predicate OfOther(s: State, a: L.Action) {
    match a
    case AddInject(t, id) => t != LOOP && t !in s.scheduling && id != EVENT
    case RemoveInject(t, _) => t != LOOP && t !in s.scheduling
    case Break(t) => t != LOOP && t !in s.scheduling
    case Write(t) => true
    case _ => false
  }

  /** The action is one of the loop thread, which is not inside OrMask() or RunDeferred(). */
  predicate OfLoop(s: State, a: L.Action) {
    && !(a.AddInject? || a.RemoveInject? || a.Break? || a.Write?)
    && !s.calling && LOOP !in s.scheduling && a != L.Callback(L.LoopAddInject(EVENT))
  }

  /** The loop thread runs a callback that may use the monitor. */
  predicate CallsBack(s: State) { s.loop.pc.Calling? && !s.calling }

  /** The loop calls RunDeferred(). */
  predicate CallsEvent(s: L.State, s': L.State) { I.Calls(s, s', I.InjectQueue, EVENT) }

  predicate RemovesEvent(s: L.State, a: L.Action) { I.Cancels(s, a, I.InjectQueue, EVENT) }

  /** Where the monitor's event is in the inject list, or its length. */
  function EventIndex(inject: seq<nat>): nat {
    if inject == [] || inject[0] == EVENT then 0 else 1 + EventIndex(inject[1..])
  }

  ghost predicate Enabled(s: State, a: Action) {
    match a
    case OrMask(t, _) => t !in s.scheduling && t !in s.loop.shared.writing && (t == LOOP ==> CallsBack(s))
    case Schedule(t) => t in s.scheduling && L.Enabled(s.loop, L.AddInject(t, EVENT))
    case Cancel(t) => t !in s.scheduling && t !in s.loop.shared.writing && (t == LOOP ==> CallsBack(s))
    case Other(b) => L.Enabled(s.loop, b) && (OfOther(s, b) || OfLoop(s, b)) && !RemovesEvent(s.loop, b)
    case Deliver => s.calling
  }

  /** RemoveInject() of the monitor's event. */
  function CancelAction(s: State, t: Thread): L.Action { L.RemoveInject(t, EventIndex(s.loop.shared.inject)) }

  function Step(s: State, a: Action): State {
    match a
    case OrMask(t, mask) =>
      s.(pending := s.pending + mask, asked := s.asked + mask,
         scheduling := if s.pending == {} then s.scheduling + {t} else s.scheduling)
    case Schedule(t) => s.(loop := L.Step(s.loop, L.AddInject(t, EVENT)), scheduling := s.scheduling - {t})
    case Cancel(t) => s.(loop := L.Step(s.loop, CancelAction(s, t)))
    case Other(b) =>
      s.(loop := L.Step(s.loop, b), calling := s.calling || CallsEvent(s.loop, L.Step(s.loop, b)))
    case Deliver => s.(pending := {}, delivered := s.delivered + s.pending, calling := false)
  }

  predicate Initial(s: State) {
    && L.Initial(s.loop) && s.loop.shared.inject == [] && LOOP !in s.loop.shared.writing
    && s.pending == s.asked == s.delivered == {} && s.scheduling == {} && !s.calling
  }

  ghost predicate IsRun(states: seq<State>, actions: seq<Action>) {
    && |states| == |actions| + 1 && Initial(states[0])
    && forall k :: 0 <= k < |actions| ==> Enabled(states[k], actions[k]) && states[k + 1] == Step(states[k], actions[k])
  }

  // --- what every step keeps -------------------------------------------------------------

  predicate ThreadsOk(s: State) {
    && (s.calling || LOOP in s.scheduling ==> s.loop.pc.Calling?)
    && LOOP !in s.loop.shared.writing
  }

  predicate Inv(s: State) {
    && T.Inv(s.loop) && Distinct(s.loop.shared.inject) && ThreadsOk(s)
    && s.delivered + s.pending == s.asked
  }

  /** Someone is going to deliver what is pending. */
  predicate Armed(s: State) {
    s.pending != {} ==> EVENT in s.loop.shared.inject || s.scheduling != {} || s.calling
  }

  /** Cancel() finds nothing pending, or another thread or the loop about to act. */
  predicate CancelSafe(s: State) { s.pending == {} || s.scheduling != {} || s.calling }

  lemma {:induction false} EventIndexAt(inject: seq<nat>)
    ensures var k := EventIndex(inject);
            k <= |inject| && (EVENT in inject <==> k < |inject|) && (k < |inject| ==> inject[k] == EVENT)
  {
    if inject != [] && inject[0] != EVENT {
      EventIndexAt(inject[1..]);
      assert EVENT in inject ==> EVENT in inject[1..];
    }
  }

  lemma LoopKeeps(s: State, b: L.Action)
    requires Inv(s) && L.Enabled(s.loop, b)
    ensures T.Inv(L.Step(s.loop, b)) && Distinct(L.Step(s.loop, b).shared.inject)
    ensures EVENT in s.loop.shared.inject && EVENT !in L.Step(s.loop, b).shared.inject
            ==> CallsEvent(s.loop, L.Step(s.loop, b)) || RemovesEvent(s.loop, b)
    ensures b.AddInject? && b.id == EVENT ==> EVENT in L.Step(s.loop, b).shared.inject
  {
    T.StepKeepsInv(s.loop, b);
    I.StepAccounts(s.loop, b, I.InjectQueue, EVENT);
    I.InjectStaysDistinct(s.loop, b);
    I.OccursIfIn(s.loop.shared.inject, EVENT);
    I.OccursIfIn(L.Step(s.loop, b).shared.inject, EVENT);
  }

  /** One of the other steps of the event loop. */
  lemma OtherKeepsInv(s: State, b: L.Action)
    requires Inv(s) && Enabled(s, Other(b))
    ensures Inv(Step(s, Other(b))) && (Armed(s) ==> Armed(Step(s, Other(b))))
  {
    LoopKeeps(s, b);
  }

  lemma StepKeepsInv(s: State, a: Action)
    requires Inv(s) && Enabled(s, a)
    ensures Inv(Step(s, a))
    ensures Armed(s) && !a.Cancel? ==> Armed(Step(s, a))
  {
    match a {
      case Schedule(t) => LoopKeeps(s, L.AddInject(t, EVENT));
      case Cancel(t) => LoopKeeps(s, CancelAction(s, t));
      case Other(b) => OtherKeepsInv(s, b);
      case _ =>
    }
  }

  lemma CancelKeepsArmed(s: State, t: Thread)
    requires Inv(s) && Enabled(s, Cancel(t))
    ensures Armed(Step(s, Cancel(t))) <==> CancelSafe(s)
  {
    var inject := s.loop.shared.inject;
    EventIndexAt(inject);
    I.DropKeepsDistinct(inject, EventIndex(inject), EVENT);
  }

  lemma {:induction false} RunKeepsInv(states: seq<State>, actions: seq<Action>, k: nat)
    requires IsRun(states, actions) && k < |states|
    ensures Inv(states[k])
  {
    if k == 0 {
      T.InitiallyInv(states[0].loop);
    } else {
      RunKeepsInv(states, actions, k - 1);
      StepKeepsInv(states[k - 1], actions[k - 1]);
    }
  }

  // --- the theorems ----------------------------------------------------------------------

  /** No flag is lost or invented. */
  lemma FlagsAreConserved(states: seq<State>, actions: seq<Action>, k: nat)
    requires IsRun(states, actions) && k < |states|
    ensures states[k].delivered + states[k].pending == states[k].asked
  {
    RunKeepsInv(states, actions, k);
  }

  predicate CancelsSafely(states: seq<State>, actions: seq<Action>)
    requires |states| == |actions| + 1
  {
    forall j :: 0 <= j < |actions| && actions[j].Cancel? ==> CancelSafe(states[j])
  }

  lemma {:induction false} ArmedUpTo(states: seq<State>, actions: seq<Action>, k: nat)
    requires IsRun(states, actions) && k < |states| && CancelsSafely(states, actions)
    ensures Armed(states[k])
  {
    if k > 0 {
      ArmedUpTo(states, actions, k - 1);
      RunKeepsInv(states, actions, k - 1);
      StepKeepsInv(states[k - 1], actions[k - 1]);
      if actions[k - 1].Cancel? {
        CancelKeepsArmed(states[k - 1], actions[k - 1].thread);
      }
    }
  }

  /** Flags are never forgotten, exactly in the runs where each Cancel() is safe. */
  lemma AlwaysArmed(states: seq<State>, actions: seq<Action>)
    requires IsRun(states, actions)
    ensures (forall k :: 0 <= k < |states| ==> Armed(states[k])) <==> CancelsSafely(states, actions)
  {
    if CancelsSafely(states, actions) {
      forall k | 0 <= k < |states| ensures Armed(states[k]) {
        ArmedUpTo(states, actions, k);
      }
    } else {
      var j :| 0 <= j < |actions| && actions[j].Cancel? && !CancelSafe(states[j]);
      RunKeepsInv(states, actions, j);
      CancelKeepsArmed(states[j], actions[j].thread);
      assert !Armed(states[j + 1]);
    }
  }

  /** Nothing calls Cancel(): then, if the loop is blocked with flags pending, it has been woken,
      or another thread is on its way to queue the event or to wake the loop. */
  lemma PendingFlagsWake(states: seq<State>, actions: seq<Action>, k: nat)
    requires IsRun(states, actions) && k < |states| && forall j :: 0 <= j < |actions| ==> !actions[j].Cancel?
    ensures Armed(states[k])
    ensures states[k].pending != {} && states[k].loop.pc == L.Waiting ==>
              || states[k].loop.shared.readable || (exists t :: t in states[k].loop.shared.writing)
              || (exists t :: t in states[k].scheduling && t != LOOP)
  {
    RunKeepsInv(states, actions, k);
    ArmedUpTo(states, actions, k);
    if EVENT in states[k].loop.shared.inject {
      assert states[k].loop.shared.inject != [];
    }
  }

  lemma StepDeliversOnce(s: State, a: Action)
    requires Inv(s) && Enabled(s, a)
    ensures I.One(s.calling) + I.One(CallsEvent(s.loop, Step(s, a).loop)) ==
            I.One(Step(s, a).calling) + I.One(a == Deliver)
  {
  }

  /** How often the loop has called RunDeferred(), and how often the mask was delivered. */
  function TimesCalled(states: seq<State>, k: nat): nat
    requires k < |states|
  {
    if k == 0 then 0 else TimesCalled(states, k - 1) + I.One(CallsEvent(states[k - 1].loop, states[k].loop))
  }

  function TimesDelivered(actions: seq<Action>, k: nat): nat
    requires k <= |actions|
  {
    if k == 0 then 0 else TimesDelivered(actions, k - 1) + I.One(actions[k - 1] == Deliver)
  }

  /** Each call of RunDeferred() delivers once. */
  lemma {:induction false} DeliversOncePerCall(states: seq<State>, actions: seq<Action>, k: nat)
    requires IsRun(states, actions) && k < |states|
    ensures TimesCalled(states, k) == TimesDelivered(actions, k) + I.One(states[k].calling)
  {
    if k > 0 {
      DeliversOncePerCall(states, actions, k - 1);
      RunKeepsInv(states, actions, k - 1);
      StepDeliversOnce(states[k - 1], actions[k - 1]);
    }
  }

  lemma ExtendRun(states: seq<State>, actions: seq<Action>, a: Action, s: State)
    returns (states': seq<State>, actions': seq<Action>)
    requires IsRun(states, actions) && Enabled(states[|states| - 1], a) && s == Step(states[|states| - 1], a)
    ensures IsRun(states', actions') && states'[|states'| - 1] == s
  {
    states', actions' := states + [s], actions + [a];
  }

  const IDLE_LOOP := L.State(L.Top, L.Shared([], true, false, false, false, {}), L.Work([], [], [], [], map[], map[]),
                             L.Times(0, -1, -1, -1, -1))

  /** Cancel() does not clear the mask, so flags that were queued are stranded, and later flags
      too: fetch_or() no longer returns zero. */
  lemma CancelStrands() returns (states: seq<State>, actions: seq<Action>)
    ensures IsRun(states, actions) && !Armed(states[|states| - 1])
  {
    var queued := IDLE_LOOP.(shared := IDLE_LOOP.shared.(inject := [EVENT], again := true));
    var emptied := IDLE_LOOP.(shared := IDLE_LOOP.shared.(again := true));
    states, actions := [State(IDLE_LOOP, {}, {}, false, {}, {})], [];
    states, actions := ExtendRun(states, actions, OrMask(2, {1}), State(IDLE_LOOP, {1}, {2}, false, {1}, {}));
    states, actions := ExtendRun(states, actions, Schedule(2), State(queued, {1}, {}, false, {1}, {}));
    states, actions := ExtendRun(states, actions, Cancel(2), State(emptied, {1}, {}, false, {1}, {}));
    states, actions := ExtendRun(states, actions, OrMask(2, {3}), State(emptied, {1, 3}, {}, false, {1, 3}, {}));
  }
}
