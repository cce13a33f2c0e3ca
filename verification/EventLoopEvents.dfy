/**
 What becomes of queued events: in each queue of the loop, an event is called or cancelled
 exactly as often as it was queued, or is still queued.
 */
module EventLoopEvents {
  import opened Prelude
  import opened TimerHistory
  import opened EventLoop

  datatype Queue = InjectQueue | DeferQueue | IdleQueue | ReadyQueue | SocketQueue | FineQueue | CoarseQueue

  /** The queue that a callback was taken from. */
  function QueueOf(c: Caller): Queue {
    match c
    case FromFine => FineQueue
    case FromReady => ReadyQueue
    case FromBuckets => CoarseQueue
    case FromDeferred => DeferQueue
    case FromIdle => IdleQueue
    case FromSocket => SocketQueue
    case FromInject => InjectQueue
    case FromWake => InjectQueue
  }

  function One(b: bool): nat { if b then 1 else 0 }

  function Occurrences(ids: seq<Id>, id: Id): nat {
    if ids == [] then 0 else One(ids[0] == id) + Occurrences(ids[1..], id)
  }

  predicate At(ids: seq<Id>, k: nat, id: Id) { k < |ids| && ids[k] == id }

  predicate IsList(q: Queue) { q != FineQueue && q != CoarseQueue }

  function List(s: State, q: Queue): seq<Id>
    requires IsList(q)
  {
    match q
    case InjectQueue => s.shared.inject
    case DeferQueue => s.work.defer
    case IdleQueue => s.work.idle
    case ReadyQueue => s.work.ready
    case SocketQueue => s.work.sockets
  }

  /** How often the event is queued. */
  function Queued(s: State, q: Queue, id: Id): nat {
    match q
    case FineQueue => One(id in s.work.fine)
    case CoarseQueue => One(id in s.work.coarse)
    case _ => Occurrences(List(s, q), id)
  }

  /** A coarse timer goes to the ready list if it is due already. */
  predicate InsertsCoarse(s: State, a: Action, id: Id, ready: bool) {
    a.Callback? && a.deed.InsertCoarse? && a.deed.id == id && (ready <==> a.deed.due <= s.times.now)
  }

  predicate InsertsFine(a: Action, id: Id) { a.Callback? && a.deed.InsertFine? && a.deed.id == id }

  /** How often the action queues the event: AddInject() does nothing if it is pending. */
  function Queues(s: State, a: Action, q: Queue, id: Id): nat {
    match q
    case InjectQueue =>
      One(id !in s.shared.inject && ((a.AddInject? && a.id == id) || a == Callback(LoopAddInject(id))))
    case DeferQueue => One(a == Callback(AddDefer(id)))
    case IdleQueue => One(a == Callback(AddIdle(id)))
    case ReadyQueue => One(InsertsCoarse(s, a, id, true))
    case SocketQueue => if a.WakeUp? then Occurrences(a.ready, id) else 0
    case FineQueue => One(InsertsFine(a, id))
    case CoarseQueue => One(InsertsCoarse(s, a, id, false))
  }

  /** The event is taken out of the queue without being called.  A timer that is inserted again
      replaces itself. */
  predicate Cancels(s: State, a: Action, q: Queue, id: Id) {
    match q
    case InjectQueue =>
      || (a.RemoveInject? && At(s.shared.inject, a.k, id))
      || (a.Callback? && a.deed.LoopRemoveInject? && At(s.shared.inject, a.deed.k, id))
    case DeferQueue => a.Callback? && a.deed.CancelDefer? && At(s.work.defer, a.deed.k, id)
    case IdleQueue => a.Callback? && a.deed.CancelIdle? && At(s.work.idle, a.deed.k, id)
    case ReadyQueue => a.Callback? && a.deed.CancelReady? && At(s.work.ready, a.deed.k, id)
    case SocketQueue => a.Callback? && a.deed.CancelSocket? && At(s.work.sockets, a.deed.k, id)
    case FineQueue => id in s.work.fine && (a == Callback(CancelTimer(id)) || InsertsFine(a, id))
    case CoarseQueue => id in s.work.coarse && (a == Callback(CancelTimer(id)) || InsertsCoarse(s, a, id, false))
  }

  /** A callback begins: that of the event, which was in this queue.  wake_event belongs to the
      loop itself. */
  predicate Calls(s: State, s': State, q: Queue, id: Id) {
    || (!s.pc.Calling? && s'.pc.Calling? && s'.pc.id == id && QueueOf(s'.pc.caller) == q)
    || (s.pc != ReadWake && s'.pc == ReadWake && id == WAKE && q == SocketQueue)
  }

  // --- what a step does to a list ----------------------------------------------------------

  /** Nothing, add at the end (idle events: at the beginning), remove one, or call the first. */
  datatype Change = Same | Appended(more: seq<Id>) | Prepended(id: Id) | Dropped(k: nat) | Popped

  function Changed(ids: seq<Id>, c: Change): seq<Id> {
    match c
    case Same => ids
    case Appended(more) => ids + more
    case Prepended(id) => [id] + ids
    case Dropped(k) => Drop(ids, k)
    case Popped => if ids == [] then ids else ids[1..]
  }

  function Entering(c: Change, id: Id): nat {
    match c
    case Appended(more) => Occurrences(more, id)
    case Prepended(x) => One(x == id)
    case _ => 0
  }

  predicate Leaving(ids: seq<Id>, c: Change, id: Id) {
    match c
    case Dropped(k) => At(ids, k, id)
    case Popped => At(ids, 0, id)
    case _ => false
  }

  lemma {:induction false} AppendCounts(a: seq<Id>, b: seq<Id>, id: Id)
    ensures Occurrences(a + b, id) == Occurrences(a, id) + Occurrences(b, id)
  {
    if a == [] {
      assert a + b == b;
    } else {
      assert (a + b)[1..] == a[1..] + b;
      AppendCounts(a[1..], b, id);
    }
  }

  lemma DropCounts(ids: seq<Id>, k: nat, id: Id)
    ensures Occurrences(ids, id) == Occurrences(Drop(ids, k), id) + One(At(ids, k, id))
  {
    if k < |ids| {
      assert ids == ids[..k] + ids[k..] && ids[k..][1..] == ids[k + 1..];
      AppendCounts(ids[..k], ids[k..], id);
      AppendCounts(ids[..k], ids[k + 1..], id);
    }
  }

  lemma ChangeCounts(ids: seq<Id>, c: Change, id: Id)
    ensures Occurrences(ids, id) + Entering(c, id) == Occurrences(Changed(ids, c), id) + One(Leaving(ids, c, id))
  {
    match c
    case Appended(more) => AppendCounts(ids, more, id);
    case Prepended(x) => assert ([x] + ids)[1..] == ids;
    case Dropped(k) => DropCounts(ids, k, id);
    case _ =>
  }

  lemma {:induction false} OccursIfIn(ids: seq<Id>, id: Id)
    ensures id in ids <==> Occurrences(ids, id) > 0
  {
    if ids != [] {
      OccursIfIn(ids[1..], id);
      assert id in ids <==> id == ids[0] || id in ids[1..];
    }
  }

  /** The change that an action makes to a list. */
  function ChangeOf(s: State, a: Action, q: Queue): Change
    requires IsList(q)
  {
    match a
    case Loop => if List(LoopStep(s), q) == List(s, q) then Same else Popped
    case WakeUp(ready, _) => if q == SocketQueue then Appended(ready) else Same
    case AddInject(_, id) => if q == InjectQueue && id !in s.shared.inject then Appended([id]) else Same
    case RemoveInject(_, k) => if q == InjectQueue then Dropped(k) else Same
    case Callback(d) => ChangeBy(s, d, q)
    case _ => Same
  }

  function ChangeBy(s: State, d: Deed, q: Queue): Change {
    match d
    case AddDefer(id) => if q == DeferQueue then Appended([id]) else Same
    case AddIdle(id) => if q == IdleQueue then Prepended(id) else Same
    case InsertCoarse(id, due) => if q == ReadyQueue && due <= s.times.now then Appended([id]) else Same
    case CancelDefer(k) => if q == DeferQueue then Dropped(k) else Same
    case CancelIdle(k) => if q == IdleQueue then Dropped(k) else Same
    case CancelReady(k) => if q == ReadyQueue then Dropped(k) else Same
    case CancelSocket(k) => if q == SocketQueue then Dropped(k) else Same
    case LoopAddInject(id) => if q == InjectQueue && id !in s.shared.inject then Appended([id]) else Same
    case LoopRemoveInject(k) => if q == InjectQueue then Dropped(k) else Same
    case _ => Same
  }

  lemma CallbackChanges(s: State, d: Deed, q: Queue)
    requires s.pc.Calling? && IsList(q)
    ensures List(Step(s, Callback(d)), q) == Changed(List(s, q), ChangeBy(s, d, q))
  {
  }

  lemma LoopChanges(s: State, q: Queue)
    requires IsList(q)
    ensures List(LoopStep(s), q) == List(s, q) || (List(s, q) != [] && List(LoopStep(s), q) == List(s, q)[1..])
  {
  }

  lemma StepChanges(s: State, a: Action, q: Queue)
    requires Enabled(s, a) && IsList(q)
    ensures List(Step(s, a), q) == Changed(List(s, q), ChangeOf(s, a, q))
  {
    if a == Loop {
      LoopChanges(s, q);
    } else if a.Callback? {
      CallbackChanges(s, a.deed, q);
    }
  }

  // --- one step --------------------------------------------------------------------------

  ghost predicate Accounts(s: State, a: Action, q: Queue, id: Id) {
    var s' := Step(s, a);
    Queued(s, q, id) + Queues(s, a, q, id) == Queued(s', q, id) + One(Calls(s, s', q, id)) + One(Cancels(s, a, q, id))
  }

  /** What enters a list was queued, and what leaves it is called or cancelled. */
  predicate Explained(s: State, a: Action, q: Queue, id: Id)
    requires IsList(q)
  {
    var c := ChangeOf(s, a, q);
    && Queues(s, a, q, id) == Entering(c, id)
    && (Calls(s, Step(s, a), q, id) <==> c == Popped && At(List(s, q), 0, id))
    && (Cancels(s, a, q, id) <==> c.Dropped? && At(List(s, q), c.k, id))
  }

  /** Run() takes the first event of a list exactly to call it. */
  lemma LoopCalls(s: State, q: Queue, id: Id)
    requires IsList(q)
    ensures Calls(s, LoopStep(s), q, id) <==> List(LoopStep(s), q) != List(s, q) && At(List(s, q), 0, id)
  {
    match s.pc
    case Deferred =>
    case Idle =>
    case ReadyTimers =>
    case Dispatch =>
    case Inject =>
    case WakeInject =>
    case _ =>
  }

  lemma LoopExplains(s: State, q: Queue, id: Id)
    requires IsList(q)
    ensures Explained(s, Loop, q, id)
  {
    LoopCalls(s, q, id);
  }

  lemma SingleCounts(x: Id, id: Id)
    ensures Occurrences([x], id) == One(x == id)
  {
    assert [x][1..] == [];
  }

  lemma CallbackExplains(s: State, d: Deed, q: Queue, id: Id)
    requires s.pc.Calling? && IsList(q)
    ensures Explained(s, Callback(d), q, id)
  {
    if d.AddDefer? || d.InsertCoarse? || d.LoopAddInject? {
      SingleCounts(d.id, id);
    }
  }

  lemma OtherExplains(s: State, a: Action, q: Queue, id: Id)
    requires Enabled(s, a) && a != Loop && !a.Callback? && IsList(q)
    ensures Explained(s, a, q, id)
  {
    if a.AddInject? {
      SingleCounts(a.id, id);
    }
  }

  lemma StepExplains(s: State, a: Action, q: Queue, id: Id)
    requires Enabled(s, a) && IsList(q)
    ensures Explained(s, a, q, id)
  {
    if a == Loop {
      LoopExplains(s, q, id);
    } else if a.Callback? {
      CallbackExplains(s, a.deed, q, id);
    } else {
      OtherExplains(s, a, q, id);
    }
  }

  lemma ListAccounts(s: State, a: Action, q: Queue, id: Id)
    requires Enabled(s, a) && IsList(q)
    ensures Accounts(s, a, q, id)
  {
    StepChanges(s, a, q);
    StepExplains(s, a, q, id);
    ChangeCounts(List(s, q), ChangeOf(s, a, q), id);
  }

  lemma FineAccounts(s: State, a: Action, id: Id)
    requires Enabled(s, a)
    ensures Accounts(s, a, FineQueue, id)
  {
  }

  lemma CoarseAccounts(s: State, a: Action, id: Id)
    requires Enabled(s, a)
    ensures Accounts(s, a, CoarseQueue, id)
  {
  }

  lemma StepAccounts(s: State, a: Action, q: Queue, id: Id)
    requires Enabled(s, a)
    ensures Accounts(s, a, q, id)
  {
    match q
    case FineQueue => FineAccounts(s, a, id);
    case CoarseQueue => CoarseAccounts(s, a, id);
    case _ => ListAccounts(s, a, q, id);
  }

  // --- runs ------------------------------------------------------------------------------

  /** How often each happened in the first k steps of a run. */
  function TimesQueued(states: seq<State>, actions: seq<Action>, q: Queue, id: Id, k: nat): nat
    requires k <= |actions| < |states|
  {
    if k == 0 then 0
    else TimesQueued(states, actions, q, id, k - 1) + Queues(states[k - 1], actions[k - 1], q, id)
  }

  function TimesCalled(states: seq<State>, q: Queue, id: Id, k: nat): nat
    requires k < |states|
  {
    if k == 0 then 0 else TimesCalled(states, q, id, k - 1) + One(Calls(states[k - 1], states[k], q, id))
  }

  function TimesCancelled(states: seq<State>, actions: seq<Action>, q: Queue, id: Id, k: nat): nat
    requires k <= |actions| < |states|
  {
    if k == 0 then 0
    else TimesCancelled(states, actions, q, id, k - 1) + One(Cancels(states[k - 1], actions[k - 1], q, id))
  }

  /** No event is lost, and none is called that was not queued, or more often than it was. */
  lemma {:induction false} EventsAreAccountedFor(states: seq<State>, actions: seq<Action>, q: Queue, id: Id, k: nat)
    requires IsRun(states, actions) && k < |states|
    ensures Queued(states[0], q, id) + TimesQueued(states, actions, q, id, k) ==
            TimesCalled(states, q, id, k) + TimesCancelled(states, actions, q, id, k) + Queued(states[k], q, id)
  {
    if k > 0 {
      EventsAreAccountedFor(states, actions, q, id, k - 1);
      StepAccounts(states[k - 1], actions[k - 1], q, id);
    }
  }

  // --- the order of calls ------------------------------------------------------------------

  /** x is queued, and y is not before it. */
  predicate Ahead(ids: seq<Id>, x: Id, y: Id) {
    exists i :: 0 <= i < |ids| && ids[i] == x && y !in ids[..i]
  }

  lemma DropKeepsAhead(ids: seq<Id>, k: nat, x: Id, y: Id)
    requires Ahead(ids, x, y)
    ensures Ahead(Drop(ids, k), x, y) || At(ids, k, x)
  {
    var i :| 0 <= i < |ids| && ids[i] == x && y !in ids[..i];
    var ids' := Drop(ids, k);
    if i < k {
      assert ids'[i] == x && ids'[..i] == ids[..i];
    } else if k < i {
      assert ids'[i - 1] == x && ids'[..i - 1] == ids[..k] + ids[k + 1..i];
      assert forall n :: 0 <= n < i ==> ids[..i][n] != y;
    }
  }

  lemma ChangeKeepsAhead(ids: seq<Id>, c: Change, x: Id, y: Id)
    requires x != y && Ahead(ids, x, y) && c != Prepended(y)
    ensures Ahead(Changed(ids, c), x, y) || (c == Popped && ids[0] == x) || (c.Dropped? && At(ids, c.k, x))
    ensures ids[0] != y
  {
    var i :| 0 <= i < |ids| && ids[i] == x && y !in ids[..i];
    if i > 0 {
      assert ids[0] in ids[..i];
    }
    var ids' := Changed(ids, c);
    match c
    case Same =>
    case Appended(more) => assert ids'[i] == x && ids'[..i] == ids[..i];
    case Prepended(id) => assert ids'[i + 1] == x && ids'[..i + 1] == [id] + ids[..i];
    case Popped => if i > 0 { assert ids'[i - 1] == x && ids'[..i - 1] == ids[..i][1..]; }
    case Dropped(k) => DropKeepsAhead(ids, k, x, y);
  }

  /** y is not called while x is ahead of it; and x stays ahead until it is called or cancelled. */
  lemma NoOvertaking(s: State, a: Action, q: Queue, x: Id, y: Id)
    requires Enabled(s, a) && IsList(q) && x != y && Ahead(List(s, q), x, y)
    requires q == IdleQueue ==> a != Callback(AddIdle(y))
    ensures !Calls(s, Step(s, a), q, y)
    ensures Ahead(List(Step(s, a), q), x, y) || Calls(s, Step(s, a), q, x) || Cancels(s, a, q, x)
  {
    StepChanges(s, a, q);
    ChangeKeepsAhead(List(s, q), ChangeOf(s, a, q), x, y);
    StepExplains(s, a, q, x);
    StepExplains(s, a, q, y);
  }

  /** In every list, events are called in the order in which they are queued: before y, what was
      ahead of it is called or cancelled.  Idle events are queued at the beginning. */
  lemma {:induction false} FirstComeFirstServed(states: seq<State>, actions: seq<Action>, q: Queue, x: Id, y: Id,
                                                j: nat, k: nat)
    requires IsRun(states, actions) && j <= k < |actions| && IsList(q) && x != y
    requires Ahead(List(states[j], q), x, y) && Calls(states[k], states[k + 1], q, y)
    requires q == IdleQueue ==> forall i :: j <= i <= k ==> actions[i] != Callback(AddIdle(y))
    ensures exists m :: j <= m < k && (Calls(states[m], states[m + 1], q, x) || Cancels(states[m], actions[m], q, x))
    decreases k - j
  {
    NoOvertaking(states[j], actions[j], q, x, y);
    if !Calls(states[j], states[j + 1], q, x) && !Cancels(states[j], actions[j], q, x) {
      FirstComeFirstServed(states, actions, q, x, y, j + 1, k);
    }
  }

  /** RunDeferred() has called all deferred events, unless the loop must quit. */
  predicate DeferredDone(s: State) {
    && (s.pc == CheckDeferred ==> s.work.defer == [] || s.shared.quit)
    && (s.pc == Idle ==> s.work.defer == [])
  }

  lemma DeferredStaysDone(s: State, a: Action)
    requires Enabled(s, a) && DeferredDone(s)
    ensures DeferredDone(Step(s, a))
  {
  }

  lemma {:induction false} DeferredIsDone(states: seq<State>, actions: seq<Action>, k: nat)
    requires IsRun(states, actions) && k < |states|
    ensures DeferredDone(states[k])
  {
    if k > 0 {
      DeferredIsDone(states, actions, k - 1);
      DeferredStaysDone(states[k - 1], actions[k - 1]);
    }
  }

  /** An idle event is called only when no deferred event is left. */
  lemma IdleComesLast(states: seq<State>, actions: seq<Action>, id: Id, k: nat)
    requires IsRun(states, actions) && k < |actions| && Calls(states[k], states[k + 1], IdleQueue, id)
    ensures states[k].work.defer == []
  {
    DeferredIsDone(states, actions, k);
  }

  /** No timer is called early. */
  lemma TimersAreDue(states: seq<State>, actions: seq<Action>, id: Id, k: nat)
    requires IsRun(states, actions) && k < |actions|
    ensures Calls(states[k], states[k + 1], FineQueue, id) ==>
              id in states[k].work.fine && states[k].work.fine[id] <= states[k].times.now
    ensures Calls(states[k], states[k + 1], CoarseQueue, id) ==>
              id in states[k].work.coarse && states[k].work.coarse[id] <= states[k].times.now
  {
    assert Enabled(states[k], actions[k]) && states[k + 1] == Step(states[k], actions[k]);
  }

  // --- the inject list ---------------------------------------------------------------------

  lemma DropKeepsDistinct(ids: seq<Id>, k: nat, id: Id)
    requires Distinct(ids)
    ensures Distinct(Drop(ids, k)) && (At(ids, k, id) ==> id !in Drop(ids, k))
  {
  }

  /** An event is in the inject list at most once. */
  lemma InjectStaysDistinct(s: State, a: Action)
    requires Distinct(s.shared.inject) && Enabled(s, a)
    ensures Distinct(Step(s, a).shared.inject)
  {
    if a.RemoveInject? {
      DropKeepsDistinct(s.shared.inject, a.k, 0);
    } else if a.Callback? && a.deed.LoopRemoveInject? {
      DropKeepsDistinct(s.shared.inject, a.deed.k, 0);
    }
  }
}
