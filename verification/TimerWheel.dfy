/**
 The timer wheel for coarse timers (src/event/TimerWheel.cxx).  The intrusive lists of the
 source are sequences of timer identities, so a timer is in at most one list.
 */
module TimerWheel {
  import opened Prelude
  import opened TimerHistory

  const RESOLUTION: nat := 1_000_000_000
  const N_BUCKETS: nat := 120
  const SPAN: nat := N_BUCKETS * RESOLUTION

  function Tick(t: nat): nat { t / RESOLUTION }

  function BucketIndexAt(t: nat): nat { Tick(t) % N_BUCKETS }

  function BucketStart(t: nat): nat { t - t % RESOLUTION }

  function NextBucketIndex(i: nat): nat { (i + 1) % N_BUCKETS }

  // --- bucket arithmetic -----------------------------------------------------------------

  /** How many steps from bucket `start` to bucket `i`. */
  function Offset(start: nat, i: nat): int {
    if start <= i then i - start else i + N_BUCKETS - start
  }

  /** How many buckets the loop from `start` to `end` visits. */
  function RangeSize(start: nat, end: nat): int {
    if start == end then N_BUCKETS else Offset(start, end)
  }

  lemma NextOffset(start: nat, i: nat)
    requires start < N_BUCKETS && i < N_BUCKETS
    ensures var j := NextBucketIndex(i);
            j < N_BUCKETS && (if j == start then Offset(start, i) + 1 == N_BUCKETS
                              else Offset(start, j) == Offset(start, i) + 1)
  {
  }

  /** A later time is in the bucket that many ticks ahead, modulo the size of the wheel. */
  lemma BucketAhead(from: nat, t: nat)
    requires Tick(from) <= Tick(t)
    ensures Offset(BucketIndexAt(from), BucketIndexAt(t)) == (Tick(t) - Tick(from)) % N_BUCKETS
  {
    var d := Tick(t) - Tick(from);
    assert (BucketIndexAt(from) + d % N_BUCKETS) % N_BUCKETS == BucketIndexAt(t);
  }

  lemma StartIsAligned(t: nat)
    ensures BucketStart(t) == Tick(t) * RESOLUTION && Tick(BucketStart(t)) == Tick(t) &&
            BucketStart(t) <= t < BucketStart(t) + RESOLUTION
  {
  }

  // --- the wheel -------------------------------------------------------------------------

  /** The lists of the wheel: `ready`, each of `buckets`, and the temporary list into which
      Run(List&) moves a bucket while it walks it. */
  datatype Place = Ready | Detached | Bucket(i: nat)

  predicate IsPlace(p: Place) { p.Bucket? ==> p.i < N_BUCKETS }

  function Places(): (places: set<Place>)
    ensures forall p :: IsPlace(p) <==> p in places
  {
    var places := (set i | 0 <= i < N_BUCKETS :: Bucket(i)) + {Ready, Detached};
    assert forall p :: IsPlace(p) && p.Bucket? ==> p == Bucket(p.i) && 0 <= p.i < N_BUCKETS;
    places
  }

  type Lists = map<Place, seq<Id>>

  /** The lists hold exactly the timers that say so, each once. */
  ghost predicate Linked(lists: Lists, place: map<Id, Place>) {
    && (forall p :: IsPlace(p) ==> p in lists)
    && (forall p, id :: p in lists && id in lists[p] ==> id in place && place[id] == p)
    && (forall id :: id in place ==> IsPlace(place[id]) && id in lists[place[id]])
    && (forall p :: p in lists ==> Distinct(lists[p]))
  }

  /** The two maps agree on every timer outside of list p. */
  ghost predicate SameElsewhere(place: map<Id, Place>, place': map<Id, Place>, p: Place) {
    (forall x :: x in place && place[x] != p ==> x in place' && place'[x] == place[x]) &&
    (forall x :: x in place' && place'[x] != p ==> x in place && place[x] == place'[x])
  }

  /** Replacing one list by another of the right members. */
  lemma Relink(lists: Lists, place: map<Id, Place>, p: Place, s: seq<Id>, place': map<Id, Place>)
    requires Linked(lists, place) && IsPlace(p) && Distinct(s)
    requires forall x :: x in s <==> x in place' && place'[x] == p
    requires SameElsewhere(place, place', p)
    ensures Linked(lists[p := s], place')
  {
  }

  lemma UnlinkKeeps(lists: Lists, place: map<Id, Place>, id: Id, k: nat)
    requires Linked(lists, place) && id in place
    requires k < |lists[place[id]]| && lists[place[id]][k] == id
    ensures Linked(lists[place[id] := Without(lists[place[id]], k)], place - {id})
  {
    var p := place[id];
    WithoutKeepsOthers(lists[p], k);
    Relink(lists, place, p, Without(lists[p], k), place - {id});
  }

  lemma LinkKeeps(lists: Lists, place: map<Id, Place>, id: Id, p: Place)
    requires Linked(lists, place) && id !in place && IsPlace(p)
    ensures Linked(lists[p := lists[p] + [id]], place[id := p])
  {
    Relink(lists, place, p, lists[p] + [id], place[id := p]);
  }

  /** A timer due then may be in that list. */
  predicate Belongs(p: Place, dueTime: int, clock: int, floor: nat) {
    && IsPlace(p)
    && (p == Ready ==> dueTime <= clock)
    && (p.Bucket? ==> dueTime >= floor && BucketIndexAt(dueTime) == p.i)
  }

  /** When each timer is due agrees with the list it is in. */
  ghost predicate Timed(place: map<Id, Place>, due: map<Id, int>, clock: int, floor: nat) {
    && (forall id :: id in place ==> id in due)
    && (forall id :: id in place ==> Belongs(place[id], due[id], clock, floor))
  }

  /** The list a new timer goes to: its bucket, or `ready` when it is due already. */
  function PlaceFor(dueTime: int, now: nat): Place {
    if dueTime > now then Bucket(BucketIndexAt(dueTime)) else Ready
  }

  function PendingOf(place: map<Id, Place>, due: map<Id, int>): map<Id, int> {
    map id | id in place && id in due :: due[id]
  }

  class TimerWheel {
    /** lists[Bucket(i)] is buckets[i], lists[Ready] is ready. */
    var lists: Lists
    var lastTime: nat
    var empty: bool
    /** CoarseTimerEvent::due of every timer that was ever scheduled. */
    var due: map<Id, int>
    /** The list each pending timer is linked in. */
    var place: map<Id, Place>
    /** The latest time the wheel has been told. */
    ghost var clock: int
    /** No timer in a bucket is due before this. */
    ghost var floor: nat

    ghost predicate Valid()
      reads this
    {
      && Linked(lists, place) && Timed(place, due, clock, floor)
      && (empty ==> forall p :: IsPlace(p) && p != Ready ==> lists[p] == [])
    }

    /** The wheel between two calls. */
    ghost predicate Quiet()
      reads this
    {
      Valid() && lists[Detached] == [] && floor == lastTime && lastTime % RESOLUTION == 0
    }

    ghost function Pending(): map<Id, int>
      reads this
    {
      PendingOf(place, due)
    }

    constructor ()
      ensures Quiet() && Pending() == map[] && clock == lastTime == 0
    {
      lists := map p | p in Places() :: [];
      lastTime, empty, due, place, clock, floor := 0, true, map[], map[], 0, 0;
    }

    /** CoarseTimerEvent::Cancel. */
    method Unlink(id: Id)
      requires Valid()
      modifies this`lists, this`place
      ensures Valid() && place == old(place) - {id}
      ensures |lists[Detached]| <= |old(lists)[Detached]|
    {
      if id in place {
        assert id in lists[place[id]];
        var k :| 0 <= k < |lists[place[id]]| && lists[place[id]][k] == id;
        UnlinkAt(id, k);
      }
    }

    /** Unlinking a timer from the position where it is. */
    method UnlinkAt(id: Id, k: nat)
      requires Valid() && id in place && k < |lists[place[id]]| && lists[place[id]][k] == id
      modifies this`lists, this`place
      ensures Valid() && place == old(place) - {id}
      ensures var p := old(place)[id]; lists == old(lists)[p := Without(old(lists)[p], k)]
    {
      UnlinkKeeps(lists, place, id, k);
      lists := lists[place[id] := Without(lists[place[id]], k)];
      place := place - {id};
    }

    /** TimerWheel::Insert; the timer is not linked, and its due time is set with it. */
    method Insert(id: Id, dueTime: int, now: nat)
      requires Valid() && id !in place && now >= floor
      modifies this`lists, this`place, this`due, this`empty, this`clock
      ensures Valid() && place == old(place)[id := PlaceFor(dueTime, now)] && due == old(due)[id := dueTime]
      ensures clock == (if now > old(clock) then now else old(clock))
      ensures lists[Detached] == old(lists)[Detached]
    {
      SetDue(id, dueTime, now);
      Link(id, PlaceFor(dueTime, now));
    }

    /** The due time of a timer that is not linked. */
    method SetDue(id: Id, dueTime: int, now: nat)
      requires Valid() && id !in place
      modifies this`due, this`empty, this`clock
      ensures Valid() && !empty && due == old(due)[id := dueTime]
      ensures clock == (if now > old(clock) then now else old(clock))
    {
      due, empty := due[id := dueTime], false;
      clock := if now > clock then now else clock;
    }

    /** list.push_back(t) */
    method Link(id: Id, p: Place)
      requires Valid() && !empty && id !in place && id in due && Belongs(p, due[id], clock, floor)
      modifies this`lists, this`place
      ensures Valid() && place == old(place)[id := p] && lists == old(lists)[p := old(lists)[p] + [id]]
    {
      LinkKeeps(lists, place, id, p);
      lists := lists[p := lists[p] + [id]];
      place := place[id := p];
    }

    /** CoarseTimerEvent::Schedule. */
    method Schedule(id: Id, dueTime: int, now: nat)
      requires Quiet() && now >= lastTime
      modifies this`lists, this`place, this`due, this`empty, this`clock
      ensures Quiet() && Pending() == old(Pending())[id := dueTime]
      ensures clock == (if now > old(clock) then now else old(clock))
    {
      PerformKeeps(place, due, Request.Schedule(id, dueTime), now);
      Unlink(id);
      Insert(id, dueTime, now);
    }

    /** CoarseTimerEvent::ScheduleEarlier: a pending timer is only ever moved forward. */
    method ScheduleEarlier(id: Id, dueTime: int, now: nat)
      requires Quiet() && now >= lastTime
      modifies this`lists, this`place, this`due, this`empty, this`clock
      ensures Quiet() && id in Pending() && Pending() == old(Pending())[id := Pending()[id]]
      ensures Pending()[id] ==
              if id in old(Pending()) && old(Pending())[id] < dueTime then old(Pending())[id] else dueTime
    {
      if id in place && dueTime >= due[id] {
        return;
      }
      Schedule(id, dueTime, now);
    }

    /** CoarseTimerEvent::Cancel, not called by a callback. */
    method Unschedule(id: Id)
      requires Quiet()
      modifies this`lists, this`place
      ensures Quiet() && Pending() == old(Pending()) - {id}
    {
      Unlink(id);
    }

    /** CoarseTimerEvent::Schedule or Cancel, called by a callback. */
    method PerformOne(request: Request, now: nat) returns (e: Event)
      requires Valid() && now >= floor && clock >= now
      modifies this`lists, this`place, this`due, this`empty, this`clock
      ensures Valid() && Frame(old(place), old(due), place, due, now, [e]) && clock == old(clock)
      ensures Pending() == After(old(Pending()), e) && !e.Ran?
      ensures |lists[Detached]| <= |old(lists)[Detached]|
    {
      PerformKeeps(place, due, request, now);
      Unlink(request.id);
      if request.Schedule? {
        Insert(request.id, request.due, now);
        e := Scheduled(request.id, request.due);
      } else {
        e := Cancelled(request.id);
      }
    }

    /** The requests of one callback, in order. */
    method Perform(requests: seq<Request>, now: nat) returns (log: seq<Event>)
      requires Valid() && now >= floor && clock >= now
      modifies this`lists, this`place, this`due, this`empty, this`clock
      ensures Valid() && Frame(old(place), old(due), place, due, now, log) && clock == old(clock)
      ensures Explains(old(Pending()), log, Pending()) && NoneEarly(log, now)
      ensures |lists[Detached]| <= |old(lists)[Detached]|
    {
      log := [];
      for k := 0 to |requests|
        invariant Valid() && Frame(old(place), old(due), place, due, now, log) && clock == old(clock)
        invariant Explains(old(Pending()), log, Pending()) && NoneEarly(log, now)
        invariant |lists[Detached]| <= |old(lists)[Detached]|
      {
        ghost var place1, due1 := place, due;
        var e := PerformOne(requests[k], now);
        FrameTransitive(old(place), old(due), place1, due1, place, due, now, log, [e]);
        ReplayAppend(old(Pending()), log, e);
        log := log + [e];
      }
    }

    /** pop_front() of the clear_and_dispose() loops. */
    method PopFront(p: Place) returns (id: Id)
      requires Valid() && IsPlace(p) && lists[p] != []
      modifies this`lists, this`place
      ensures Valid() && id == old(lists)[p][0] && place == old(place) - {id}
      ensures lists == old(lists)[p := old(lists)[p][1..]]
    {
      id := lists[p][0];
      assert id in lists[p];
      assert Without(lists[p], 0) == lists[p][1..];
      UnlinkAt(id, 0);
    }

    /** Pop a timer, about to run its callback. */
    method PopToRun(p: Place, ghost now: nat) returns (ran: Event)
      requires Valid() && IsPlace(p) && lists[p] != []
      modifies this`lists, this`place
      ensures Valid() && lists == old(lists)[p := old(lists)[p][1..]]
      ensures old(lists)[p][0] in due && ran == Ran(old(lists)[p][0], due[old(lists)[p][0]])
      ensures Frame(old(place), due, place, due, now, [ran]) && Explains(old(Pending()), [ran], Pending())
    {
      assert lists[p][0] in lists[p];
      PerformKeeps(place, due, Cancel(lists[p][0]), now);
      ghost var pending := Pending();
      var id := PopFront(p);
      ran := Ran(id, due[id]);
      ReplayAppend(pending, [], ran);
      assert [] + [ran] == [ran];
    }

    /** Pop a timer that is due, and run its callback. */
    method RunFront(p: Place, now: nat, script: seq<seq<Request>>, ghost limit: int)
      returns (log: seq<Event>, rest: seq<seq<Request>>)
      requires Valid() && IsPlace(p) && !p.Bucket? && lists[p] != [] && now >= floor && clock >= now
      requires lists[p][0] in due && due[lists[p][0]] <= limit && now <= limit
      modifies this`lists, this`place, this`due, this`empty, this`clock
      ensures Valid() && Frame(old(place), old(due), place, due, now, log) && clock == old(clock)
      ensures Explains(old(Pending()), log, Pending()) && NoneEarly(log, limit)
      ensures |lists[Detached]| <= |old(lists)[Detached]|
      ensures |rest| < |script| || (rest == script == [] && lists == old(lists)[p := old(lists)[p][1..]])
      ensures Passive(script, log, rest)
      ensures p == Detached ==> |lists[Detached]| < |old(lists)[Detached]|
    {
      ghost var place0, due0 := place, due;
      var ran := PopToRun(p, now);
      if script == [] {
        return [ran], [];
      }
      ghost var place1, due1 := place, due;
      var more := Perform(script[0], now);
      FrameTransitive(place0, due0, place1, due1, place, due, now, [ran], more);
      ExplainsConcat(PendingOf(place0, due0), [ran], PendingOf(place1, due1), more, Pending());
      NoneEarlyConcat([ran], more, limit);
      return [ran] + more, script[1..];
    }

    /** ready.clear_and_dispose(): every ready timer is run, also those that callbacks add. */
    method RunReady(now: nat, script: seq<seq<Request>>) returns (log: seq<Event>, rest: seq<seq<Request>>)
      requires Valid() && now >= floor && clock >= now && lists[Detached] == []
      modifies this`lists, this`place, this`due, this`empty, this`clock
      ensures Valid() && Frame(old(place), old(due), place, due, now, log) && clock == old(clock)
      ensures Explains(old(Pending()), log, Pending()) && NoneEarly(log, clock)
      ensures lists[Detached] == [] && lists[Ready] == [] && |rest| <= |script|
      ensures Passive(script, log, rest)
    {
      log, rest := [], script;
      while lists[Ready] != []
        invariant Valid() && Frame(old(place), old(due), place, due, now, log) && clock == old(clock)
        invariant Explains(old(Pending()), log, Pending()) && NoneEarly(log, clock)
        invariant lists[Detached] == [] && |rest| <= |script| && Passive(script, log, rest)
        decreases |rest|, |lists[Ready]|
      {
        ghost var place1, due1 := place, due;
        assert lists[Ready][0] in lists[Ready];
        var more;
        more, rest := RunFront(Ready, now, rest, clock);
        FrameTransitive(old(place), old(due), place1, due1, place, due, now, log, more);
        NoneEarlyConcat(log, more, clock);
        ExplainsConcat(old(Pending()), log, PendingOf(place1, due1), more, Pending());
        log := log + more;
      }
    }

    /** Run(List&): `auto tmp = std::move(list)`. */
    method Detach(i: nat)
      requires Valid() && i < N_BUCKETS && lists[Detached] == []
      modifies this`lists, this`place
      ensures Valid() && place == DetachedPlaces(old(place), i) && lists[Ready] == old(lists)[Ready]
      ensures Pending() == old(Pending())
    {
      DetachKeeps(lists, place, i);
      DetachPending(place, due, i);
      lists := lists[Detached := lists[Bucket(i)]][Bucket(i) := []];
      place := DetachedPlaces(place, i);
    }

    /** Run(List&): a timer that is not yet due goes back to its list. */
    method PushBack(i: nat)
      requires Valid() && lists[Detached] != [] && i < N_BUCKETS
      requires var id := lists[Detached][0]; id in due && due[id] >= floor && BucketIndexAt(due[id]) == i
      modifies this`lists, this`place
      ensures Valid() && place == old(place)[old(lists)[Detached][0] := Bucket(i)]
      ensures lists[Detached] == old(lists)[Detached][1..] && lists[Ready] == old(lists)[Ready]
    {
      PushBackKeeps(lists, place, i);
      var id := lists[Detached][0];
      lists := lists[Detached := lists[Detached][1..]][Bucket(i) := lists[Bucket(i)] + [id]];
      place := place[id := Bucket(i)];
    }

    /** Run(List&): one timer of the temporary list is run, or goes back to bucket i. */
    method RunDetached(i: nat, now: nat, script: seq<seq<Request>>, ghost place0: map<Id, Place>,
                       ghost due0: map<Id, int>, ghost before: seq<Event>)
      returns (log: seq<Event>, rest: seq<seq<Request>>)
      requires Valid() && i < N_BUCKETS && now >= floor && clock >= now && lists[Detached] != []
      requires Timed(place0, due0, clock, floor) && MidFrame(place0, due0, place, due, now, i, before)
      requires forall x :: x in place0 ==> place0[x] != Detached
      modifies this`lists, this`place, this`due, this`empty, this`clock
      ensures Valid() && clock == old(clock) && MidFrame(place0, due0, place, due, now, i, before + log)
      ensures Explains(old(Pending()), log, Pending()) && NoneEarly(log, now)
      ensures |lists[Detached]| < |old(lists)[Detached]|
      ensures Passive(script, log, rest)
    {
      ghost var place1, due1 := place, due;
      var id := lists[Detached][0];
      assert id in lists[Detached] && id in place;
      DetachedBelongs(place0, due0, clock, floor, place, due, now, i, id, before);
      if due[id] <= now {
        log, rest := RunFront(Detached, now, script, now);
        MidFrameThenFrame(place0, due0, place1, due1, place, due, now, i, before, log);
      } else {
        PushBack(i);
        MidFramePushBack(place0, due0, place1, due1, now, i, id, before);
        log, rest := [], script;
        assert before + log == before;
      }
    }

    /** Run(List&): run the timers of bucket i that are due. */
    method RunBucket(i: nat, now: nat, script: seq<seq<Request>>) returns (log: seq<Event>, rest: seq<seq<Request>>)
      requires Valid() && i < N_BUCKETS && now >= floor && clock >= now && lists[Detached] == []
      modifies this`lists, this`place, this`due, this`empty, this`clock
      ensures Valid() && lists[Detached] == [] && clock == old(clock)
      ensures MidFrame(old(place), old(due), place, due, now, i, log)
      ensures Explains(old(Pending()), log, Pending()) && NoneEarly(log, now)
      ensures Passive(script, log, rest)
    {
      ghost var place0, due0 := place, due;
      assert forall x :: x in place0 ==> place0[x] != Detached;
      Detach(i);
      log, rest := [], script;
      while lists[Detached] != []
        invariant Valid() && clock == old(clock) && MidFrame(place0, due0, place, due, now, i, log)
        invariant Explains(PendingOf(place0, due0), log, Pending()) && NoneEarly(log, now)
        invariant Passive(script, log, rest)
        decreases |lists[Detached]|
      {
        ghost var pending1 := Pending();
        var more;
        more, rest := RunDetached(i, now, rest, place0, due0, log);
        NoneEarlyConcat(log, more, now);
        ExplainsConcat(PendingOf(place0, due0), log, pending1, more, Pending());
        log := log + more;
      }
    }

    /** The bucket loop of Run(): from one bucket up to, but not including, another; all
        buckets if the two are the same. */
    method RunBuckets(start: nat, end: nat, now: nat, script: seq<seq<Request>>)
      returns (log: seq<Event>, rest: seq<seq<Request>>)
      requires ReadyLogged(place, due, [])
      requires Valid() && start < N_BUCKETS && end < N_BUCKETS
      requires now >= floor && clock >= now && lists[Detached] == []
      modifies this`lists, this`place, this`due, this`empty, this`clock
      ensures Valid() && lists[Detached] == [] && clock == old(clock)
      ensures Swept(place, due, now, start, RangeSize(start, end))
      ensures Explains(old(Pending()), log, Pending()) && NoneEarly(log, now)
      ensures Passive(script, log, rest)
      ensures ReadyLogged(place, due, log)
    {
      log, rest := [], script;
      var i: nat := start;
      ghost var d := 0;
      while true
        invariant 0 <= d < RangeSize(start, end)
        invariant i < N_BUCKETS && Offset(start, i) == d
        invariant Valid() && lists[Detached] == [] && clock == old(clock) && Swept(place, due, now, start, d)
        invariant ReadyLogged(place, due, log)
        invariant Explains(old(Pending()), log, Pending()) && NoneEarly(log, now)
        invariant Passive(script, log, rest)
        decreases N_BUCKETS - d
      {
        ghost var place1, due1 := place, due;
        var more;
        more, rest := RunBucket(i, now, rest);
        SweptNext(place1, due1, place, due, now, start, i, more);
        ReadyLoggedNext(place1, due1, place, due, now, i, log, more);
        ExplainsConcat(old(Pending()), log, PendingOf(place1, due1), more, Pending());
        NoneEarlyConcat(log, more, now);
        log := log + more;
        NextOffset(start, i);
        i, d := NextBucketIndex(i), d + 1;
        if i == end {
          assert d == RangeSize(start, end);
          return;
        }
      }
    }

    /** GetNextDue: the end of the first non-empty bucket, searching from the given one;
        None stands for TimePoint::max(). */
    method GetNextDue(bucketIndex: nat, bucketStartTime: nat) returns (r: Option<nat>)
      requires Valid() && bucketIndex < N_BUCKETS
      ensures r.None? <==> forall i :: 0 <= i < N_BUCKETS ==> lists[Bucket(i)] == []
      ensures r.Some? ==> FirstEndsAt(lists, bucketIndex, bucketStartTime, r.value)
    {
      var t := bucketStartTime;
      var i: nat := bucketIndex;
      ghost var d := 0;
      while true
        invariant 0 <= d < N_BUCKETS && i < N_BUCKETS && Offset(bucketIndex, i) == d &&
                  t == bucketStartTime + d * RESOLUTION
        invariant forall j :: 0 <= j < N_BUCKETS && Offset(bucketIndex, j) < d ==> lists[Bucket(j)] == []
        decreases N_BUCKETS - d
      {
        t := t + RESOLUTION;
        if lists[Bucket(i)] != [] {
          return Some(t);
        }
        i, d := NextBucketIndex(i), d + 1;
        if i == bucketIndex {
          return None;
        }
      }
    }

    /** GetSleep: -1 exactly when no timer is in a bucket; otherwise until the end of the first
        non-empty bucket, which is ahead and at most one RESOLUTION late for any of them. */
    method GetSleep(now: nat) returns (sleep: int)
      requires Valid() && lists[Detached] == [] && NotBefore(place, due, BucketStart(now))
      modifies this`empty
      ensures Valid()
      ensures sleep == -1 <==> forall id :: id in place ==> !place[id].Bucket?
      ensures sleep != -1 ==> sleep > 0 && SoonEnough(place, due, now + sleep)
      ensures sleep != -1 ==> FirstEndsAt(lists, BucketIndexAt(now), BucketStart(now), now + sleep)
    {
      if empty {
        return -1;
      }
      var t := GetNextDue(BucketIndexAt(now), BucketStart(now));
      if t.None? {
        empty := true;
        return -1;
      }
      NextDueInTime(lists, place, due, now, t.value);
      return t.value - now;
    }

    /** TimerWheel::Run. */
    method Run(now: nat, script: seq<seq<Request>>) returns (sleep: int, log: seq<Event>, rest: seq<seq<Request>>)
      requires Quiet()
      modifies this
      ensures Quiet() && clock == (if now > old(clock) then now else old(clock))
      ensures Explains(old(Pending()), log, Pending()) && NoneEarly(log, clock)
      ensures lastTime == BucketStart(now) && NotBefore(place, due, lastTime)
      ensures sleep == -1 <==> forall id :: id in place ==> !place[id].Bucket?
      ensures sleep != -1 ==> sleep > 0 && SoonEnough(place, due, now + sleep)
      ensures sleep != -1 ==> FirstEndsAt(lists, BucketIndexAt(now), BucketStart(now), now + sleep)
      ensures Passive(script, log, rest)
      ensures ReadyLogged(place, due, log)
    {
      log, rest := RunTimers(now, script);
      sleep := GetSleep(now);
    }

    /** The wheel learns the time, which may have gone back. */
    ghost method Advance(now: nat)
      requires Quiet()
      modifies this`clock, this`floor
      ensures Valid() && clock == (if now > old(clock) then now else old(clock))
      ensures now >= floor && (now >= lastTime ==> floor == lastTime)
    {
      StartIsAligned(now);
      clock := if now > clock then now else clock;
      floor := if now < floor then BucketStart(now) else floor;
    }

    /** Run() without its result. */
    method RunTimers(now: nat, script: seq<seq<Request>>) returns (log: seq<Event>, rest: seq<seq<Request>>)
      requires Quiet()
      modifies this
      ensures Quiet() && clock == (if now > old(clock) then now else old(clock))
      ensures Explains(old(Pending()), log, Pending()) && NoneEarly(log, clock)
      ensures lastTime == BucketStart(now) && NotBefore(place, due, lastTime)
      ensures Passive(script, log, rest)
      ensures ReadyLogged(place, due, log)
    {
      Advance(now);
      log, rest := RunReady(now, script);
      ghost var pending1 := Pending();
      var more;
      more, rest := RunDue(now, rest);
      ExplainsConcat(old(Pending()), log, pending1, more, Pending());
      NoneEarlyConcat(log, more, clock);
      log := log + more;
    }

    /** Run(): which buckets are due, and running them. */
    method RunDue(now: nat, script: seq<seq<Request>>) returns (log: seq<Event>, rest: seq<seq<Request>>)
      requires ReadyLogged(place, due, [])
      requires Valid() && lists[Detached] == [] && now >= floor && clock >= now && lastTime % RESOLUTION == 0
      requires now >= lastTime ==> floor == lastTime
      modifies this
      ensures Quiet() && clock == old(clock)
      ensures Explains(old(Pending()), log, Pending()) && NoneEarly(log, now)
      ensures lastTime == BucketStart(now) && NotBefore(place, due, lastTime)
      ensures Passive(script, log, rest)
      ensures ReadyLogged(place, due, log)
    {
      var startBucket := BucketIndexAt(lastTime);
      var endBucket: nat;
      if now < lastTime || now >= lastTime + SPAN - RESOLUTION {
        endBucket := startBucket;
      } else {
        endBucket := BucketIndexAt(now);
        if startBucket == endBucket {
          SameBucket(lastTime, now);
          return [], script;
        }
      }
      log, rest := Sweep(startBucket, endBucket, now, script);
    }

    /** Run(): the part that moves last_time and runs buckets. */
    method Sweep(start: nat, end: nat, now: nat, script: seq<seq<Request>>)
      returns (log: seq<Event>, rest: seq<seq<Request>>)
      requires ReadyLogged(place, due, [])
      requires Valid() && lists[Detached] == [] && now >= floor && clock >= now
      requires start == BucketIndexAt(lastTime) && end < N_BUCKETS
      requires end != start ==> end == BucketIndexAt(now) && floor == lastTime && WithinTurn(lastTime, now)
      modifies this
      ensures Quiet() && clock == old(clock)
      ensures Explains(old(Pending()), log, Pending()) && NoneEarly(log, now)
      ensures lastTime == BucketStart(now) && NotBefore(place, due, lastTime)
      ensures Passive(script, log, rest)
      ensures ReadyLogged(place, due, log)
    {
      StartIsAligned(now);
      ghost var last := lastTime;
      lastTime := BucketStart(now);
      log, rest := RunBuckets(start, end, now, script);
      AllSwept(place, due, now, last, floor, end);
      floor := lastTime;
    }
  }

  /** Less than a turn of the wheel has passed since the aligned time of the last run. */
  predicate WithinTurn(lastTime: nat, now: nat) {
    lastTime % RESOLUTION == 0 && lastTime <= now < lastTime + SPAN - RESOLUTION
  }

  /** No timer in a bucket is due before t. */
  ghost predicate NotBefore(place: map<Id, Place>, due: map<Id, int>, t: nat) {
    forall id :: id in place && place[id].Bucket? ==> id in due && due[id] >= t
  }

  /** Waking up at time t is at most one RESOLUTION late for every timer in a bucket. */
  ghost predicate SoonEnough(place: map<Id, Place>, due: map<Id, int>, t: int) {
    forall id :: id in place && place[id].Bucket? ==> id in due && t <= due[id] + RESOLUTION
  }

  /** Counting from bucket `index`, which starts at `start`, the first non-empty bucket ends at t. */
  ghost predicate FirstEndsAt(lists: Lists, index: nat, start: nat, t: int)
    requires index < N_BUCKETS && forall i :: 0 <= i < N_BUCKETS ==> Bucket(i) in lists
  {
    && (exists i :: 0 <= i < N_BUCKETS && lists[Bucket(i)] != [] && t == start + (Offset(index, i) + 1) * RESOLUTION)
    && (forall i :: 0 <= i < N_BUCKETS && lists[Bucket(i)] != [] ==> t <= start + (Offset(index, i) + 1) * RESOLUTION)
  }

  /** The end of the first non-empty bucket is in time for a timer of any bucket. */
  lemma WakeInTime(now: nat, dueTime: int, t: nat)
    requires dueTime >= BucketStart(now)
    requires t <= BucketStart(now) + (Offset(BucketIndexAt(now), BucketIndexAt(dueTime)) + 1) * RESOLUTION
    ensures t <= dueTime + RESOLUTION
  {
    StartIsAligned(now);
    StartIsAligned(dueTime);
    BucketAhead(now, dueTime);
  }

  /** So is the end of the first non-empty bucket for all timers, and it is still to come. */
  lemma NextDueInTime(lists: Lists, place: map<Id, Place>, due: map<Id, int>, now: nat, t: nat)
    requires Linked(lists, place) && NotBefore(place, due, BucketStart(now))
    requires forall id :: id in place && place[id].Bucket? ==>
             id in due && due[id] >= 0 && place[id].i == BucketIndexAt(due[id])
    requires FirstEndsAt(lists, BucketIndexAt(now), BucketStart(now), t)
    ensures t > now && SoonEnough(place, due, t)
    ensures exists id :: id in place && place[id].Bucket?
  {
    StartIsAligned(now);
    var i :| 0 <= i < N_BUCKETS && lists[Bucket(i)] != [] &&
             t == BucketStart(now) + (Offset(BucketIndexAt(now), i) + 1) * RESOLUTION;
    var some := lists[Bucket(i)][0];
    assert some in lists[Bucket(i)] && place[some] == Bucket(i);
    assert Offset(BucketIndexAt(now), i) >= 0;
    forall id | id in place && place[id].Bucket? ensures t <= due[id] + RESOLUTION {
      assert lists[Bucket(place[id].i)] != [];
      WakeInTime(now, due[id], t);
    }
  }

  /** Within less than one turn of the wheel, the same bucket means the same tick. */
  lemma SameBucket(lastTime: nat, now: nat)
    requires WithinTurn(lastTime, now) && BucketIndexAt(lastTime) == BucketIndexAt(now)
    ensures BucketStart(now) == lastTime
  {
    StartIsAligned(now);
    BucketAhead(lastTime, now);
  }

  lemma TicksWithinTurn(lastTime: nat, now: nat, d: nat)
    requires WithinTurn(lastTime, now) && lastTime <= d < BucketStart(now)
    ensures Tick(lastTime) <= Tick(d) < Tick(now) < Tick(lastTime) + N_BUCKETS
  {
    StartIsAligned(now);
    StartIsAligned(d);
  }

  /** A time before the current bucket is in a bucket that the loop visits. */
  lemma VisitedWhenDue(lastTime: nat, now: nat, d: nat)
    requires WithinTurn(lastTime, now) && lastTime <= d < BucketStart(now)
    ensures Offset(BucketIndexAt(lastTime), BucketIndexAt(d)) < Offset(BucketIndexAt(lastTime), BucketIndexAt(now))
  {
    TicksWithinTurn(lastTime, now, d);
    BucketAhead(lastTime, d);
    BucketAhead(lastTime, now);
  }

  /** After the bucket loop, no timer in a bucket is due before the current bucket. */
  lemma AllSwept(place: map<Id, Place>, due: map<Id, int>, now: nat, lastTime: nat, floor: nat, end: nat)
    requires forall id :: id in place && place[id].Bucket? ==>
                            id in due && due[id] >= floor && place[id].i == BucketIndexAt(due[id])
    requires Swept(place, due, now, BucketIndexAt(lastTime), RangeSize(BucketIndexAt(lastTime), end))
    requires end != BucketIndexAt(lastTime) ==>
             end == BucketIndexAt(now) && floor == lastTime && WithinTurn(lastTime, now)
    ensures NotBefore(place, due, BucketStart(now))
  {
    StartIsAligned(now);
    forall id | id in place && place[id].Bucket? ensures due[id] >= BucketStart(now) {
      if end != BucketIndexAt(lastTime) && due[id] < BucketStart(now) {
        VisitedWhenDue(lastTime, now, due[id]);
      }
    }
  }

  /** Every bucket less than d steps from `start` holds only timers that are not due. */
  ghost predicate Swept(place: map<Id, Place>, due: map<Id, int>, now: nat, start: nat, d: int) {
    forall id :: id in place && place[id].Bucket? && Offset(start, place[id].i) < d ==> id in due && due[id] > now
  }

  /** Running the next bucket sweeps it, and leaves the swept ones swept. */
  lemma SweptNext(p0: map<Id, Place>, d0: map<Id, int>, p: map<Id, Place>, d: map<Id, int>, now: nat, start: nat,
                  i: nat, log: seq<Event>)
    requires start < N_BUCKETS && i < N_BUCKETS
    requires Swept(p0, d0, now, start, Offset(start, i)) && MidFrame(p0, d0, p, d, now, i, log)
    requires forall id :: id in p && p[id].Bucket? ==> p[id].i < N_BUCKETS
    ensures Swept(p, d, now, start, Offset(start, i) + 1)
  {
  }

  /** Every timer in `ready` was put there by a callback. */
  ghost predicate ReadyLogged(place: map<Id, Place>, due: map<Id, int>, log: seq<Event>) {
    forall id :: id in place && place[id] == Ready ==> id in due && Scheduled(id, due[id]) in log
  }

  lemma ReadyLoggedNext(p0: map<Id, Place>, d0: map<Id, int>, p: map<Id, Place>, d: map<Id, int>, now: nat, i: nat,
                        a: seq<Event>, b: seq<Event>)
    requires ReadyLogged(p0, d0, a) && MidFrame(p0, d0, p, d, now, i, b)
    ensures ReadyLogged(p, d, a + b)
  {
  }

  /** Every timer of bucket i is in the temporary list. */
  function DetachedPlaces(place: map<Id, Place>, i: nat): map<Id, Place> {
    map id | id in place :: if place[id] == Bucket(i) then Detached else place[id]
  }

  lemma DetachPending(place: map<Id, Place>, due: map<Id, int>, i: nat)
    ensures PendingOf(DetachedPlaces(place, i), due) == PendingOf(place, due)
  {
  }

  lemma DetachKeeps(lists: Lists, place: map<Id, Place>, i: nat)
    requires Linked(lists, place) && i < N_BUCKETS && lists[Detached] == []
    ensures Linked(lists[Detached := lists[Bucket(i)]][Bucket(i) := []], DetachedPlaces(place, i))
  {
  }

  /** While bucket i is being run: like Frame, but its old timers are still detached, or
      not due. */
  ghost predicate MidFrame(place: map<Id, Place>, due: map<Id, int>, place': map<Id, Place>, due': map<Id, int>,
                           now: nat, i: nat, log: seq<Event>)
  {
    forall id :: id in place' ==>
                   && id in due'
                   && (Newly(place'[id], id, due'[id], now, log) ||
                       (id in place && id in due && due[id] == due'[id] &&
                        if place[id] == Bucket(i) then place'[id] == Detached else place'[id] == place[id]))
  }

  /** A detached timer came from bucket i, and may go back there. */
  lemma DetachedBelongs(p0: map<Id, Place>, d0: map<Id, int>, clock: int, floor: nat,
                        p: map<Id, Place>, d: map<Id, int>, now: nat, i: nat, id: Id, log: seq<Event>)
    requires Timed(p0, d0, clock, floor) && MidFrame(p0, d0, p, d, now, i, log) && id in p && p[id] == Detached
    requires forall x :: x in p0 ==> p0[x] != Detached
    ensures id in d && d[id] >= floor && BucketIndexAt(d[id]) == i
  {
  }

  lemma MidFrameThenFrame(p0: map<Id, Place>, d0: map<Id, int>, p1: map<Id, Place>, d1: map<Id, int>,
                          p2: map<Id, Place>, d2: map<Id, int>, now: nat, i: nat, a: seq<Event>, b: seq<Event>)
    requires MidFrame(p0, d0, p1, d1, now, i, a) && Frame(p1, d1, p2, d2, now, b)
    ensures MidFrame(p0, d0, p2, d2, now, i, a + b)
  {
  }

  lemma MidFramePushBack(p0: map<Id, Place>, d0: map<Id, int>, p1: map<Id, Place>, d1: map<Id, int>, now: nat, i: nat,
                         id: Id, log: seq<Event>)
    requires MidFrame(p0, d0, p1, d1, now, i, log) && id in p1 && d1[id] > now
    ensures MidFrame(p0, d0, p1[id := Bucket(i)], d1, now, i, log)
    ensures PendingOf(p1[id := Bucket(i)], d1) == PendingOf(p1, d1)
  {
  }

  lemma PushBackKeeps(lists: Lists, place: map<Id, Place>, i: nat)
    requires Linked(lists, place) && i < N_BUCKETS && lists[Detached] != []
    ensures var id := lists[Detached][0];
            Linked(lists[Detached := lists[Detached][1..]][Bucket(i) := lists[Bucket(i)] + [id]],
                   place[id := Bucket(i)])
  {
    var id := lists[Detached][0];
    assert id in lists[Detached];
    UnlinkKeeps(lists, place, id, 0);
    assert Without(lists[Detached], 0) == lists[Detached][1..];
    LinkKeeps(lists[Detached := lists[Detached][1..]], place - {id}, id, Bucket(i));
    assert (place - {id})[id := Bucket(i)] == place[id := Bucket(i)];
  }

  /** A list entry made by a callback during a run at time `now`. */
  predicate Newly(p: Place, id: Id, dueTime: int, now: nat, log: seq<Event>) {
    (p == Ready && dueTime <= now && Scheduled(id, dueTime) in log) || (p.Bucket? && dueTime > now)
  }

  /** Every pending timer is where it was with the same due time, or was put there by a
      callback: into `ready` if it is due, into a bucket only if it is not. */
  ghost predicate Frame(place: map<Id, Place>, due: map<Id, int>, place': map<Id, Place>, due': map<Id, int>, now: nat,
                        log: seq<Event>)
  {
    forall id :: id in place' ==>
                   && id in due'
                   && (Newly(place'[id], id, due'[id], now, log) ||
                       (id in place && id in due && place[id] == place'[id] && due[id] == due'[id]))
  }

  /** What cancelling and scheduling do to the places and the pending timers. */
  lemma PerformKeeps(place: map<Id, Place>, due: map<Id, int>, r: Request, now: nat)
    requires forall id :: id in place ==> id in due
    ensures Frame(place, due, place - {r.id}, due, now, [Cancelled(r.id)])
    ensures Frame(place, due, place - {r.id}, due, now, [Ran(r.id, if r.id in due then due[r.id] else 0)])
    ensures PendingOf(place - {r.id}, due) == PendingOf(place, due) - {r.id}
    ensures r.Schedule? ==>
              var place', due' := (place - {r.id})[r.id := PlaceFor(r.due, now)], due[r.id := r.due];
              Frame(place, due, place', due', now, [Scheduled(r.id, r.due)]) &&
                PendingOf(place', due') == PendingOf(place, due)[r.id := r.due]
  {
  }

  lemma FrameTransitive(p0: map<Id, Place>, d0: map<Id, int>, p1: map<Id, Place>, d1: map<Id, int>,
                        p2: map<Id, Place>, d2: map<Id, int>, now: nat, a: seq<Event>, b: seq<Event>)
    requires Frame(p0, d0, p1, d1, now, a) && Frame(p1, d1, p2, d2, now, b)
    ensures Frame(p0, d0, p2, d2, now, a + b)
  {
  }
}
