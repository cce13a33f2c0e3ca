/**
 The timer wheel against the sorted list: the same history of schedule, cancel and run
 calls, under a clock that does not go back.
 */
module TimerRefinement {
  import opened TimerHistory
  import W = TimerWheel
  import L = TimerList

  datatype Call = Schedule(id: Id, due: int, now: nat) | Cancel(id: Id, now: nat) | Run(now: nat)

  predicate Monotone(history: seq<Call>) {
    forall j, k :: 0 <= j < k < |history| ==> history[j].now <= history[k].now
  }

  /** Timers run exactly when due: what is left of them after a history. */
  function Ideal(history: seq<Call>): map<Id, int> {
    if history == [] then map[] else
    IdealStep(Ideal(history[..|history| - 1]), history[|history| - 1])
  }

  function IdealStep(pending: map<Id, int>, call: Call): map<Id, int> {
    match call
    case Schedule(id, due, _) => pending[id := due]
    case Cancel(id, _) => pending - {id}
    case Run(now) => map id | id in pending && pending[id] > now :: pending[id]
  }

  /** The time of the last run in a history. */
  function LastRun(history: seq<Call>): nat {
    if history == [] then 0 else
    if history[|history| - 1].Run? then history[|history| - 1].now else LastRun(history[..|history| - 1])
  }

  /** Every ideal timer is pending, and any other is due in the current RESOLUTION. */
  ghost predicate AtMostOneTickLate(pending: map<Id, int>, ideal: map<Id, int>, now: nat) {
    && (forall id :: id in ideal ==> id in pending && pending[id] == ideal[id])
    && (forall id :: id in pending && id !in ideal ==> now - now % W.RESOLUTION <= pending[id] <= now)
  }

  /** If no callback has scheduled a timer, all of them are in buckets. */
  lemma WheelIsCurrent(lists: W.Lists, place: map<Id, W.Place>, due: map<Id, int>, t: nat, log: seq<Event>)
    requires W.Linked(lists, place) && W.NotBefore(place, due, t) && W.ReadyLogged(place, due, log)
    requires lists[W.Detached] == [] && Passive([], log, [])
    ensures forall id :: id in W.PendingOf(place, due) ==> W.PendingOf(place, due)[id] >= t
  {
    forall id | id in place ensures place[id].Bucket? {
      assert place[id] != W.Detached && Scheduled(id, due[id]) !in log;
    }
  }

  /** A run of the wheel whose callbacks do nothing. */
  lemma RunStaysClose(before: map<Id, int>, ideal: map<Id, int>, last: nat, log: seq<Event>, after: map<Id, int>,
                      now: nat)
    requires AtMostOneTickLate(before, ideal, last) && last <= now
    requires Explains(before, log, after) && NoneEarly(log, now) && Passive([], log, [])
    requires forall id :: id in after ==> after[id] >= W.BucketStart(now)
    ensures AtMostOneTickLate(after, map id | id in ideal && ideal[id] > now :: ideal[id], now)
  {
    AllRanShrinks(before, log, now);
  }

  lemma ListRunIsIdeal(before: map<Id, int>, log: seq<Event>, after: map<Id, int>, now: nat)
    requires Explains(before, log, after) && NoneEarly(log, now) && Passive([], log, [])
    requires forall id :: id in after ==> after[id] > now
    ensures after == IdealStep(before, Run(now))
  {
    AllRanShrinks(before, log, now);
  }

  method RunBoth(w: W.TimerWheel, l: L.TimerList, now: nat, ghost last: nat)
    requires w.Quiet() && l.Valid() && last <= now && w.clock <= now
    requires AtMostOneTickLate(w.Pending(), l.Pending(), last)
    modifies w, l
    ensures w.Quiet() && l.Valid() && w.clock <= now && w.lastTime <= now
    ensures l.Pending() == IdealStep(old(l.Pending()), Run(now))
    ensures AtMostOneTickLate(w.Pending(), l.Pending(), now)
  {
    ghost var before, ideal := w.Pending(), l.Pending();
    var _, log, _ := w.Run(now, []);
    assert w.clock == now;
    WheelIsCurrent(w.lists, w.place, w.due, w.lastTime, log);
    RunStaysClose(before, ideal, last, log, w.Pending(), now);
    var _, log', _ := l.Run(now, []);
    ListRunIsIdeal(ideal, log', l.Pending(), now);
  }

  /** One call on both structures. */
  method Step(w: W.TimerWheel, l: L.TimerList, call: Call, ghost last: nat)
    requires w.Quiet() && l.Valid() && w.lastTime <= last <= call.now && w.clock <= call.now
    requires AtMostOneTickLate(w.Pending(), l.Pending(), last)
    modifies w, l
    ensures w.Quiet() && l.Valid() && w.clock <= call.now
    ensures l.Pending() == IdealStep(old(l.Pending()), call)
    ensures var last' := if call.Run? then call.now else last;
            w.lastTime <= last' && AtMostOneTickLate(w.Pending(), l.Pending(), last')
  {
    match call
    case Schedule(id, due, now) =>
      w.Schedule(id, due, now);
      l.Schedule(id, due);
    case Cancel(id, _) =>
      w.Unschedule(id);
      l.Unlink(id);
    case Run(now) =>
      RunBoth(w, l, now, last);
  }

  /** Drive both structures with the same history. */
  method Compare(history: seq<Call>) returns (wheel: map<Id, int>, list: map<Id, int>)
    requires Monotone(history)
    ensures list == Ideal(history)
    ensures AtMostOneTickLate(wheel, list, LastRun(history))
  {
    var w := new W.TimerWheel();
    var l := new L.TimerList();
    for k := 0 to |history|
      invariant fresh(w) && fresh(l)
      invariant w.Quiet() && l.Valid()
      invariant l.Pending() == Ideal(history[..k])
      invariant AtMostOneTickLate(w.Pending(), l.Pending(), LastRun(history[..k]))
      invariant k > 0 ==> w.clock <= history[k - 1].now && w.lastTime <= LastRun(history[..k]) <= history[k - 1].now
      invariant k == 0 ==> w.clock == w.lastTime == 0
    {
      assert history[..k + 1][..k] == history[..k];
      Step(w, l, history[k], LastRun(history[..k]));
    }
    assert history[..|history|] == history;
    wheel := W.PendingOf(w.place, w.due);
    list := L.PendingIn(l.timers, l.due);
  }

  // --- callbacks that do something ---------------------------------------------------------

  /** All events of a history, in order; there is one list of them for each call. */
  function Flatten(logs: seq<seq<Event>>): seq<Event> {
    if logs == [] then [] else Flatten(logs[..|logs| - 1]) + logs[|logs| - 1]
  }

  /** The index of the last run in a history, and the index after it; zero if there is none. */
  function LastRunIndex(history: seq<Call>): (k: nat)
    ensures k <= |history|
  {
    if history == [] then 0 else
    if history[|history| - 1].Run? then |history| - 1 else LastRunIndex(history[..|history| - 1])
  }

  function AfterRunIndex(history: seq<Call>): (k: nat)
    ensures k <= |history|
  {
    if history == [] then 0 else
    if history[|history| - 1].Run? then |history| else AfterRunIndex(history[..|history| - 1])
  }

  /** The event that a call other than Run() causes. */
  function EventOf(call: Call): Event
    requires !call.Run?
  {
    match call
    case Schedule(id, due, _) => Scheduled(id, due)
    case Cancel(id, _) => Cancelled(id)
  }

  /** Each call has caused what it should, and none ran a timer early. */
  predicate Sensible(history: seq<Call>, logs: seq<seq<Event>>) {
    |logs| == |history| &&
    forall k :: 0 <= k < |history| ==>
                  if history[k].Run? then NoneEarly(logs[k], history[k].now) else logs[k] == [EventOf(history[k])]
  }

  /** Every pending timer is due at the given time or later, or was scheduled recently. */
  ghost predicate Timely(pending: map<Id, int>, recent: seq<Event>, t: int) {
    forall id :: id in pending ==> pending[id] >= t || Scheduled(id, pending[id]) in recent
  }

  lemma TimelyNext(pending: map<Id, int>, recent: seq<Event>, t: int, e: Event)
    requires Timely(pending, recent, t) && !e.Ran?
    ensures Timely(After(pending, e), recent + [e], t)
  {
  }

  lemma WheelTimely(lists: W.Lists, place: map<Id, W.Place>, due: map<Id, int>, t: nat, log: seq<Event>)
    requires W.Linked(lists, place) && W.NotBefore(place, due, t) && W.ReadyLogged(place, due, log) &&
             lists[W.Detached] == []
    ensures Timely(W.PendingOf(place, due), log, t)
  {
    forall id | id in place ensures place[id] != W.Detached {
    }
  }

  lemma FlattenNext(logs: seq<seq<Event>>, log: seq<Event>, k: nat)
    requires k <= |logs|
    ensures Flatten(logs + [log]) == Flatten(logs) + log
    ensures Flatten((logs + [log])[k..]) == Flatten(logs[k..]) + log
  {
    assert (logs + [log])[..|logs|] == logs;
    var tail := logs[k..] + [log];
    assert (logs + [log])[k..] == tail && tail[..|tail| - 1] == logs[k..];
  }

  /** The logs explain what is pending, and what is pending is due at time t or later, or was
      scheduled by one of the calls from index `from` on. */
  ghost predicate Recorded(history: seq<Call>, logs: seq<seq<Event>>, pending: map<Id, int>, from: nat, t: int) {
    && Sensible(history, logs) && Explains(map[], Flatten(logs), pending)
    && from <= |logs| && Timely(pending, Flatten(logs[from..]), t)
  }

  lemma RecordedNext(history: seq<Call>, logs: seq<seq<Event>>, before: map<Id, int>, from: nat, t: int,
                     call: Call, log: seq<Event>, after: map<Id, int>, from': nat, t': int)
    requires Recorded(history, logs, before, from, t) && Explains(before, log, after)
    requires if call.Run? then NoneEarly(log, call.now) && |logs| <= from' <= |logs| + 1
             else log == [EventOf(call)] && from' == from && t' == t
    requires call.Run? ==> Timely(after, if from' == |logs| then log else [], t')
    ensures Recorded(history + [call], logs + [log], after, from', t')
  {
    FlattenNext(logs, log, if from' <= |logs| then from' else 0);
    ExplainsConcat(map[], Flatten(logs), before, log, after);
    if !call.Run? {
      TimelyNext(before, Flatten(logs[from..]), t, log[0]);
      assert Replay(before, log) == After(before, log[0]) by {
        ReplayAppend(before, [], log[0]);
        assert [] + [log[0]] == log;
      }
    }
  }

  /** One call on the wheel, with callbacks that do anything. */
  method WheelCall(w: W.TimerWheel, call: Call, script: seq<seq<Request>>) returns (log: seq<Event>)
    requires w.Quiet() && w.lastTime <= call.now && w.clock <= call.now
    modifies w
    ensures w.Quiet() && w.clock <= call.now
    ensures w.lastTime == if call.Run? then W.BucketStart(call.now) else old(w.lastTime)
    ensures Explains(old(w.Pending()), log, w.Pending())
    ensures if call.Run? then NoneEarly(log, call.now) else log == [EventOf(call)]
    ensures call.Run? ==> Timely(w.Pending(), log, w.lastTime)
  {
    if call.Run? {
      var _, l, _ := w.Run(call.now, script);
      WheelTimely(w.lists, w.place, w.due, w.lastTime, l);
      return l;
    }
    log := [EventOf(call)];
    ReplayAppend(w.Pending(), [], log[0]);
    assert [] + log == log;
    if call.Schedule? {
      w.Schedule(call.id, call.due, call.now);
    } else {
      w.Unschedule(call.id);
    }
  }

  /** What is known of the wheel after a history. */
  ghost predicate WheelRecorded(history: seq<Call>, logs: seq<seq<Event>>, pending: map<Id, int>) {
    Recorded(history, logs, pending, LastRunIndex(history), W.BucketStart(LastRun(history)))
  }

  lemma WheelRecordedNext(history: seq<Call>, k: nat, logs: seq<seq<Event>>, before: map<Id, int>, log: seq<Event>,
                          after: map<Id, int>)
    requires k < |history| && WheelRecorded(history[..k], logs, before) && Explains(before, log, after)
    requires if history[k].Run? then NoneEarly(log, history[k].now) && Timely(after, log, W.BucketStart(history[k].now))
             else log == [EventOf(history[k])]
    ensures WheelRecorded(history[..k + 1], logs + [log], after)
    ensures LastRun(history[..k + 1]) == if history[k].Run? then history[k].now else LastRun(history[..k])
  {
    var h, h' := history[..k], history[..k + 1];
    assert h' == h + [history[k]] && h'[..k] == h;
    RecordedNext(h, logs, before, LastRunIndex(h), W.BucketStart(LastRun(h)),
                 history[k], log, after, LastRunIndex(h'), W.BucketStart(LastRun(h')));
  }

  /** Over any history, with callbacks that schedule and cancel anything: the log explains what
      is pending, no timer runs early, and every pending timer is due in the bucket of the last
      run or later, unless it was scheduled during that run or after it. */
  method DriveWheel(history: seq<Call>, scripts: seq<seq<seq<Request>>>)
    returns (pending: map<Id, int>, logs: seq<seq<Event>>)
    requires Monotone(history) && |scripts| == |history|
    ensures Recorded(history, logs, pending, LastRunIndex(history), W.BucketStart(LastRun(history)))
  {
    var w := new W.TimerWheel();
    logs := [];
    ghost var time := 0;
    for k := 0 to |history|
      invariant fresh(w) && w.Quiet() && w.lastTime == W.BucketStart(LastRun(history[..k]))
      invariant WheelRecorded(history[..k], logs, w.Pending())
      invariant w.clock <= time && w.lastTime <= time && (k < |history| ==> time <= history[k].now)
    {
      ghost var before := w.Pending();
      var log := WheelCall(w, history[k], scripts[k]);
      WheelRecordedNext(history, k, logs, before, log, w.Pending());
      logs := logs + [log];
      time := history[k].now;
    }
    assert history[..|history|] == history;
    pending := W.PendingOf(w.place, w.due);
  }

  method ListCall(l: L.TimerList, call: Call, script: seq<seq<Request>>) returns (log: seq<Event>)
    requires l.Valid()
    modifies l
    ensures l.Valid() && Explains(old(l.Pending()), log, l.Pending())
    ensures if call.Run? then NoneEarly(log, call.now) else log == [EventOf(call)]
    ensures call.Run? ==> Timely(l.Pending(), [], call.now + 1)
  {
    if call.Run? {
      var _, m, _ := l.Run(call.now, script);
      return m;
    }
    log := [EventOf(call)];
    ReplayAppend(l.Pending(), [], log[0]);
    assert [] + log == log;
    if call.Schedule? {
      l.Schedule(call.id, call.due);
    } else {
      l.Unlink(call.id);
    }
  }

  /** The same for the sorted list: every pending timer is due after the last run, unless it was
      scheduled after that run. */
  method DriveList(history: seq<Call>, scripts: seq<seq<seq<Request>>>)
    returns (pending: map<Id, int>, logs: seq<seq<Event>>)
    requires |scripts| == |history|
    ensures Recorded(history, logs, pending, AfterRunIndex(history), LastRun(history) + 1)
  {
    var l := new L.TimerList();
    logs := [];
    for k := 0 to |history|
      invariant fresh(l) && l.Valid()
      invariant Recorded(history[..k], logs, l.Pending(), AfterRunIndex(history[..k]), LastRun(history[..k]) + 1)
    {
      assert history[..k + 1] == history[..k] + [history[k]] && history[..k + 1][..k] == history[..k];
      ghost var before := l.Pending();
      var log := ListCall(l, history[k], scripts[k]);
      RecordedNext(history[..k], logs, before, AfterRunIndex(history[..k]), LastRun(history[..k]) + 1,
                   history[k], log, l.Pending(), AfterRunIndex(history[..k + 1]), LastRun(history[..k + 1]) + 1);
      logs := logs + [log];
    }
    assert history[..|history|] == history;
    pending := L.PendingIn(l.timers, l.due);
  }
}
