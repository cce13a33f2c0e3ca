/**
 What the timers of an event loop go through: scheduled, cancelled, run.  A timer is an
 identity with a due time, in nanoseconds of the steady clock.

 A callback may schedule and cancel timers, itself included.  What callbacks do is a
 parameter of a run: the k-th callback performs the k-th list of requests in a script, and
 callbacks past the end of the script do nothing.
 */
module TimerHistory {
  import opened Prelude

  type Id = nat

  /** What a timer callback asks for. */
  datatype Request = Schedule(id: Id, due: int) | Cancel(id: Id)

  /** What happened during a run, in order. */
  datatype Event = Ran(id: Id, due: int) | Scheduled(id: Id, due: int) | Cancelled(id: Id)

  /** The pending timers and their due times after an event. */
  function After(pending: map<Id, int>, e: Event): map<Id, int> {
    match e
    case Ran(id, _) => pending - {id}
    case Scheduled(id, due) => pending[id := due]
    case Cancelled(id) => pending - {id}
  }

  function Replay(pending: map<Id, int>, log: seq<Event>): map<Id, int> {
    if log == [] then pending else After(Replay(pending, log[..|log| - 1]), log[|log| - 1])
  }

  /** Each timer that ran was pending with that due time just before. */
  predicate Plausible(pending: map<Id, int>, log: seq<Event>) {
    forall k :: 0 <= k < |log| && log[k].Ran? ==>
                  var m := Replay(pending, log[..k]);
                  log[k].id in m && m[log[k].id] == log[k].due
  }

  /** Nothing in the log ran before its time. */
  predicate NoneEarly(log: seq<Event>, now: int) {
    forall k :: 0 <= k < |log| && log[k].Ran? ==> log[k].due <= now
  }

  lemma NoneEarlyConcat(a: seq<Event>, b: seq<Event>, t: int)
    requires NoneEarly(a, t) && NoneEarly(b, t)
    ensures NoneEarly(a + b, t)
  {
  }

  /** Without requests, callbacks do nothing: the log only tells which timers ran. */
  predicate Passive(script: seq<seq<Request>>, log: seq<Event>, rest: seq<seq<Request>>) {
    script == [] ==> rest == [] && forall k :: 0 <= k < |log| ==> log[k].Ran?
  }

  lemma ReplayAppend(pending: map<Id, int>, log: seq<Event>, e: Event)
    ensures Replay(pending, log + [e]) == After(Replay(pending, log), e)
    ensures Plausible(pending, log) && (e.Ran? ==> e.id in Replay(pending, log) && Replay(pending, log)[e.id] == e.due)
            ==> Plausible(pending, log + [e])
  {
    var l := log + [e];
    assert l[..|l| - 1] == log;
    forall k | 0 <= k < |log| ensures l[..k] == log[..k] {
    }
  }

  lemma {:induction false} ReplayConcat(pending: map<Id, int>, a: seq<Event>, b: seq<Event>)
    ensures Replay(pending, a + b) == Replay(Replay(pending, a), b)
  {
    if b == [] {
      assert a + b == a;
    } else {
      var b1 := b[..|b| - 1];
      ReplayConcat(pending, a, b1);
      assert (a + b)[..|a + b| - 1] == a + b1;
    }
  }

  lemma PlausibleConcat(pending: map<Id, int>, a: seq<Event>, b: seq<Event>)
    requires Plausible(pending, a) && Plausible(Replay(pending, a), b)
    ensures Plausible(pending, a + b)
  {
    forall k | 0 <= k < |a + b| && (a + b)[k].Ran?
      ensures var m := Replay(pending, (a + b)[..k]); (a + b)[k].id in m && m[(a + b)[k].id] == (a + b)[k].due
    {
      if k < |a| {
        assert (a + b)[..k] == a[..k];
      } else {
        assert (a + b)[..k] == a + b[..k - |a|];
        ReplayConcat(pending, a, b[..k - |a|]);
      }
    }
  }

  /** The log explains how one set of pending timers became another. */
  predicate Explains(before: map<Id, int>, log: seq<Event>, after: map<Id, int>) {
    Plausible(before, log) && Replay(before, log) == after
  }

  lemma ExplainsConcat(m0: map<Id, int>, a: seq<Event>, m1: map<Id, int>, b: seq<Event>, m2: map<Id, int>)
    requires Explains(m0, a, m1) && Explains(m1, b, m2)
    ensures Explains(m0, a + b, m2)
  {
    ReplayConcat(m0, a, b);
    PlausibleConcat(m0, a, b);
  }

  /** A list without the element at one position. */
  function Without(s: seq<Id>, k: nat): seq<Id>
    requires k < |s|
  {
    s[..k] + s[k + 1..]
  }

  lemma WithoutKeepsOthers(s: seq<Id>, k: nat)
    requires Distinct(s) && k < |s|
    ensures Distinct(Without(s, k)) && forall x :: x in Without(s, k) <==> x in s && x != s[k]
  {
    var r := Without(s, k);
    forall x | x in s && x != s[k] ensures x in r {
      var j :| 0 <= j < |s| && s[j] == x;
      assert r[if j < k then j else j - 1] == x;
    }
  }

  /** If only timers ran, what is pending now was pending before, and what is gone was due. */
  lemma {:induction false} AllRanShrinks(before: map<Id, int>, log: seq<Event>, now: int)
    requires Plausible(before, log) && NoneEarly(log, now) && forall k :: 0 <= k < |log| ==> log[k].Ran?
    ensures forall id :: id in Replay(before, log) ==> id in before && Replay(before, log)[id] == before[id]
    ensures forall id :: id in before && id !in Replay(before, log) ==> before[id] <= now
  {
    if log != [] {
      var shorter := log[..|log| - 1];
      assert forall k :: 0 <= k < |shorter| ==> shorter[..k] == log[..k];
      AllRanShrinks(before, shorter, now);
    }
  }

  /** How long to sleep: the time to the first timer, or -1 if there is none. */
  ghost predicate FirstDueIn(pending: map<Id, int>, now: int, sleep: int) {
    && (sleep == -1 <==> pending == map[])
    && (sleep != -1 ==> sleep > 0 && exists id :: id in pending && pending[id] == now + sleep)
    && (sleep != -1 ==> forall id :: id in pending ==> now + sleep <= pending[id])
  }
}
