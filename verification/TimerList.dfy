/**
 The sorted list of fine timers (src/event/TimerList.cxx).
 */
module TimerList {
  import opened Prelude
  import opened TimerHistory

  predicate Sorted(timers: seq<Id>, due: map<Id, int>)
    requires forall id :: id in timers ==> id in due
  {
    forall j, k :: 0 <= j < k < |timers| ==> due[timers[j]] <= due[timers[k]]
  }

  ghost predicate IsTimerList(timers: seq<Id>, due: map<Id, int>) {
    (forall id :: id in timers ==> id in due) && Distinct(timers) && Sorted(timers, due)
  }

  function PendingIn(timers: seq<Id>, due: map<Id, int>): map<Id, int>
    requires forall id :: id in timers ==> id in due
  {
    map id | id in timers :: due[id]
  }

  function InsertAt(timers: seq<Id>, k: nat, id: Id): seq<Id>
    requires k <= |timers|
  {
    timers[..k] + [id] + timers[k..]
  }

  lemma InsertAtMembers(timers: seq<Id>, k: nat, id: Id)
    requires Distinct(timers) && id !in timers && k <= |timers|
    ensures Distinct(InsertAt(timers, k, id)) && forall x :: x in InsertAt(timers, k, id) <==> x in timers || x == id
  {
    var r := InsertAt(timers, k, id);
    assert r[k] == id;
    assert forall j :: 0 <= j < |timers| ==> timers[j] == r[if j < k then j else j + 1];
  }

  lemma InsertAtOrdered(timers: seq<Id>, due: map<Id, int>, k: nat, id: Id, t: int, i: nat, j: nat)
    requires IsTimerList(timers, due) && id !in timers && IsPosition(timers, due, k, t) && i < j <= |timers|
    ensures var r, d := InsertAt(timers, k, id), due[id := t];
            r[i] in d && r[j] in d && d[r[i]] <= d[r[j]]
  {
    var r := InsertAt(timers, k, id);
    assert r[i] == if i < k then timers[i] else if i == k then id else timers[i - 1];
    assert r[j] == if j < k then timers[j] else if j == k then id else timers[j - 1];
    if i == k {
      assert due[timers[k]] <= due[timers[j - 1]];
    }
  }

  /** Where a timer with this due time is inserted. */
  predicate IsPosition(timers: seq<Id>, due: map<Id, int>, k: nat, t: int)
    requires forall id :: id in timers ==> id in due
  {
    && k <= |timers| && (forall j :: 0 <= j < k ==> due[timers[j]] < t)
    && (k < |timers| ==> due[timers[k]] >= t)
  }

  lemma InsertKeepsList(timers: seq<Id>, due: map<Id, int>, k: nat, id: Id, t: int)
    requires IsTimerList(timers, due) && id !in timers && IsPosition(timers, due, k, t)
    ensures IsTimerList(InsertAt(timers, k, id), due[id := t])
  {
    InsertAtMembers(timers, k, id);
    var r, d := InsertAt(timers, k, id), due[id := t];
    forall i, j | 0 <= i < j < |r| ensures d[r[i]] <= d[r[j]] {
      InsertAtOrdered(timers, due, k, id, t, i, j);
    }
  }

  lemma InsertPending(timers: seq<Id>, due: map<Id, int>, r: seq<Id>, id: Id, t: int)
    requires (forall x :: x in timers ==> x in due) && (forall x :: x in r <==> x in timers || x == id)
    ensures PendingIn(r, due[id := t]) == PendingIn(timers, due)[id := t]
  {
  }

  lemma InsertKeeps(timers: seq<Id>, due: map<Id, int>, k: nat, id: Id, t: int)
    requires IsTimerList(timers, due) && id !in timers && IsPosition(timers, due, k, t)
    ensures var r, d := InsertAt(timers, k, id), due[id := t];
            IsTimerList(r, d) && PendingIn(r, d) == PendingIn(timers, due)[id := t]
  {
    InsertKeepsList(timers, due, k, id, t);
    InsertAtMembers(timers, k, id);
    InsertPending(timers, due, InsertAt(timers, k, id), id, t);
  }

  lemma RemovePending(timers: seq<Id>, due: map<Id, int>, r: seq<Id>, id: Id)
    requires (forall x :: x in timers ==> x in due) && (forall x :: x in r <==> x in timers && x != id)
    ensures PendingIn(r, due) == PendingIn(timers, due) - {id}
  {
  }

  lemma RemoveKeeps(timers: seq<Id>, due: map<Id, int>, k: nat)
    requires IsTimerList(timers, due) && k < |timers|
    ensures var r := Without(timers, k);
            IsTimerList(r, due) && PendingIn(r, due) == PendingIn(timers, due) - {timers[k]}
  {
    WithoutKeepsOthers(timers, k);
    RemovePending(timers, due, Without(timers, k), timers[k]);
  }

  class TimerList {
    var timers: seq<Id>
    var due: map<Id, int>

    ghost predicate Valid()
      reads this
    {
      IsTimerList(timers, due)
    }

    ghost function Pending(): map<Id, int>
      requires Valid()
      reads this
    {
      PendingIn(timers, due)
    }

    constructor ()
      ensures Valid() && Pending() == map[]
    {
      timers, due := [], map[];
    }

    /** Insert: before the first timer that is not due earlier. */
    method Insert(id: Id, t: int)
      requires Valid() && id !in timers
      modifies this
      ensures Valid() && Pending() == old(Pending())[id := t]
    {
      var k := 0;
      while k < |timers| && due[timers[k]] < t
        invariant 0 <= k <= |timers|
        invariant forall j :: 0 <= j < k ==> due[timers[j]] < t
      {
        k := k + 1;
      }
      InsertKeeps(timers, due, k, id, t);
      timers := InsertAt(timers, k, id);
      due := due[id := t];
    }

    /** FineTimerEvent::Cancel. */
    method Unlink(id: Id)
      requires Valid()
      modifies this`timers
      ensures Valid() && Pending() == old(Pending()) - {id} && |timers| <= |old(timers)|
    {
      if id in timers {
        var k :| 0 <= k < |timers| && timers[k] == id;
        RemoveKeeps(timers, due, k);
        timers := Without(timers, k);
      }
    }

    /** FineTimerEvent::Schedule. */
    method Schedule(id: Id, t: int)
      requires Valid()
      modifies this
      ensures Valid() && Pending() == old(Pending())[id := t]
    {
      Unlink(id);
      assert id !in Pending();
      Insert(id, t);
    }

    method PerformOne(request: Request) returns (e: Event)
      requires Valid()
      modifies this
      ensures Valid() && Pending() == After(old(Pending()), e) && !e.Ran?
    {
      if request.Schedule? {
        Schedule(request.id, request.due);
        e := Scheduled(request.id, request.due);
      } else {
        Unlink(request.id);
        e := Cancelled(request.id);
      }
    }

    method Perform(requests: seq<Request>) returns (log: seq<Event>)
      requires Valid()
      modifies this
      ensures Valid() && Explains(old(Pending()), log, Pending())
      ensures forall k :: 0 <= k < |log| ==> !log[k].Ran?
    {
      log := [];
      for k := 0 to |requests|
        invariant Valid() && Explains(old(Pending()), log, Pending())
        invariant forall j :: 0 <= j < |log| ==> !log[j].Ran?
      {
        var e := PerformOne(requests[k]);
        ReplayAppend(old(Pending()), log, e);
        log := log + [e];
      }
    }

    /** One iteration of Run(): the first timer is removed and its callback is called. */
    method RunFirst(script: seq<seq<Request>>) returns (log: seq<Event>, rest: seq<seq<Request>>)
      requires Valid() && timers != []
      modifies this
      ensures Valid() && Explains(old(Pending()), log, Pending()) && Passive(script, log, rest)
      ensures NoneEarly(log, old(due)[old(timers)[0]])
      ensures |rest| < |script| || (rest == script && |timers| < |old(timers)|)
    {
      var id := timers[0];
      var ran := Ran(id, due[id]);
      assert id in timers;
      ReplayAppend(Pending(), [], ran);
      RemoveKeeps(timers, due, 0);
      ghost var pending0 := Pending();
      timers := Without(timers, 0);
      if script == [] {
        return [ran], [];
      }
      ghost var pending1 := Pending();
      var more := Perform(script[0]);
      ExplainsConcat(pending0, [ran], pending1, more, Pending());
      return [ran] + more, script[1..];
    }

    /** Run: afterwards exactly the timers that are not due are left, and the result is the
        time until the next of them. */
    method Run(now: int, script: seq<seq<Request>>) returns (sleep: int, log: seq<Event>, rest: seq<seq<Request>>)
      requires Valid()
      modifies this
      ensures Valid() && Explains(old(Pending()), log, Pending()) && NoneEarly(log, now) && Passive(script, log, rest)
      ensures forall id :: id in Pending() ==> Pending()[id] > now
      ensures FirstDueIn(Pending(), now, sleep)
    {
      log, rest := [], script;
      while timers != []
        invariant Valid() && Explains(old(Pending()), log, Pending()) && NoneEarly(log, now) &&
                  Passive(script, log, rest)
        decreases |rest|, |timers|
      {
        assert timers[0] in timers;
        var timeout := due[timers[0]] - now;
        if timeout > 0 {
          assert timers[0] in Pending();
          return timeout, log, rest;
        }
        ghost var pending1 := Pending();
        var more;
        more, rest := RunFirst(rest);
        ExplainsConcat(old(Pending()), log, pending1, more, Pending());
        NoneEarlyConcat(log, more, now);
        log := log + more;
      }
      sleep := -1;
    }
  }
}
