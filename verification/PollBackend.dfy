/**
 The poll() backend of the event loop (src/event/PollBackend.cxx): a vector of pollfd
 structures, and a map from each file descriptor to its place in the vector.
 */
module PollBackend {
  import opened Prelude

  type Events = bv16
  type Object = nat

  datatype PollFd = PollFd(fd: int, events: Events, revents: Events)

  datatype Item = Item(index: nat, obj: Object)

  /** What a caller has asked for, and what poll() has said last. */
  datatype Registration = Registration(events: Events, obj: Object, revents: Events)

  /** The vector and the map are inverse to each other. */
  ghost predicate Inverse(pollEvents: seq<PollFd>, items: map<int, Item>) {
    && (forall i :: 0 <= i < |pollEvents| ==> pollEvents[i].fd in items && items[pollEvents[i].fd].index == i)
    && (forall fd :: fd in items ==> items[fd].index < |pollEvents| && pollEvents[items[fd].index].fd == fd)
  }

  function RegistrationOf(e: PollFd, obj: Object): Registration { Registration(e.events, obj, e.revents) }

  ghost function Registered(pollEvents: seq<PollFd>, items: map<int, Item>): map<int, Registration>
    requires Inverse(pollEvents, items)
  {
    map fd | fd in items :: RegistrationOf(pollEvents[items[fd].index], items[fd].obj)
  }

  /** What poll() said about a descriptor. */
  ghost function Revents(pollEvents: seq<PollFd>, items: map<int, Item>, fd: int): Events
    requires Inverse(pollEvents, items) && fd in items
  {
    pollEvents[items[fd].index].revents
  }

  /** The vector after the last entry was swapped to `index` and removed. */
  function SwapRemove(s: seq<PollFd>, index: nat): seq<PollFd>
    requires index < |s|
  {
    s[index := s[|s| - 1]][..|s| - 1]
  }

  lemma AddKeepsInverse(s: seq<PollFd>, items: map<int, Item>, e: PollFd, obj: Object)
    requires Inverse(s, items) && e.fd !in items
    ensures var s', items' := s + [e], items[e.fd := Item(|s|, obj)];
            Inverse(s', items') && Registered(s', items') == Registered(s, items)[e.fd := RegistrationOf(e, obj)]
  {
    var s', items' := s + [e], items[e.fd := Item(|s|, obj)];
    assert forall fd :: fd in items ==> s'[items[fd].index] == s[items[fd].index];
    var r, want := Registered(s', items'), Registered(s, items)[e.fd := RegistrationOf(e, obj)];
    assert forall x :: x in r ==> x in want && r[x] == want[x];
    assert forall x :: x in want ==> x in r;
    assert r == want;
  }

  lemma ModifyKeepsInverse(s: seq<PollFd>, items: map<int, Item>, e: PollFd, obj: Object)
    requires Inverse(s, items) && e.fd in items
    ensures var index := items[e.fd].index;
            var s', items' := s[index := e], items[e.fd := Item(index, obj)];
            Inverse(s', items') && Registered(s', items') == Registered(s, items)[e.fd := RegistrationOf(e, obj)]
  {
    var index := items[e.fd].index;
    var s', items' := s[index := e], items[e.fd := Item(index, obj)];
    var r, want := Registered(s', items'), Registered(s, items)[e.fd := RegistrationOf(e, obj)];
    assert forall x :: x in r ==> x in want && r[x] == want[x];
    assert forall x :: x in want ==> x in r;
    assert r == want;
  }

  /** The map after the last entry has moved to the place of the removed one. */
  function RemoveItem(s: seq<PollFd>, items: map<int, Item>, fd: int): map<int, Item>
    requires s != [] && fd in items && s[|s| - 1].fd in items
  {
    var moved := s[|s| - 1].fd;
    items[moved := items[moved].(index := items[fd].index)] - {fd}
  }

  /** Every other descriptor keeps its entry, wherever that is now. */
  lemma RemovedElsewhere(s: seq<PollFd>, items: map<int, Item>, fd: int, x: int)
    requires Inverse(s, items) && fd in items && x in items && x != fd
    ensures s != [] && s[|s| - 1].fd in items
    ensures var s', items' := SwapRemove(s, items[fd].index), RemoveItem(s, items, fd);
            x in items' && items'[x].index < |s'| && s'[items'[x].index] == s[items[x].index] &&
              items'[x].obj == items[x].obj
  {
    assert items[x].index != items[fd].index;
  }

  lemma RemoveKeepsInverse(s: seq<PollFd>, items: map<int, Item>, fd: int)
    requires Inverse(s, items) && fd in items
    ensures s != [] && s[|s| - 1].fd in items
    ensures var s', items' := SwapRemove(s, items[fd].index), RemoveItem(s, items, fd);
            Inverse(s', items') && Registered(s', items') == Registered(s, items) - {fd}
  {
    var s', items' := SwapRemove(s, items[fd].index), RemoveItem(s, items, fd);
    forall x | x in items && x != fd
      ensures x in items' && items'[x].index < |s'| && s'[items'[x].index] == s[items[x].index] &&
              items'[x].obj == items[x].obj
    {
      RemovedElsewhere(s, items, fd, x);
    }
    assert Inverse(s', items');
    var r, want := Registered(s', items'), Registered(s, items) - {fd};
    assert forall x :: x in r ==> x in want && r[x] == want[x];
    assert forall x :: x in want ==> x in r;
    assert r == want;
  }

  /** How many entries are ready. */
  function CountReady(s: seq<PollFd>): nat {
    if s == [] then 0 else CountReady(s[..|s| - 1]) + (if s[|s| - 1].revents != 0 then 1 else 0)
  }

  lemma {:induction false} CountReadyPrefix(s: seq<PollFd>, i: nat)
    requires i <= |s|
    ensures CountReady(s[..i]) <= CountReady(s)
    ensures CountReady(s[..i]) == CountReady(s) ==> forall j :: i <= j < |s| ==> s[j].revents == 0
    decreases |s|
  {
    if i < |s| {
      CountReadyPrefix(s[..|s| - 1], i);
      assert s[..|s| - 1][..i] == s[..i];
    } else {
      assert s[..i] == s;
    }
  }

  class PollBackend {
    var pollEvents: seq<PollFd>
    var items: map<int, Item>

    ghost predicate Valid()
      reads this
    {
      Inverse(pollEvents, items)
    }

    ghost function Contents(): map<int, Registration>
      requires Valid()
      reads this
    {
      Registered(pollEvents, items)
    }

    constructor ()
      ensures Valid() && Contents() == map[]
    {
      pollEvents, items := [], map[];
    }

    method Add(fd: int, events: Events, obj: Object)
      requires Valid() && fd !in items
      modifies this
      ensures Valid() && Contents() == old(Contents())[fd := Registration(events, obj, 0)]
    {
      AddKeepsInverse(pollEvents, items, PollFd(fd, events, 0), obj);
      var index := |pollEvents|;
      pollEvents := pollEvents + [PollFd(fd, events, 0)];
      items := items[fd := Item(index, obj)];
    }

    method Modify(fd: int, events: Events, obj: Object)
      requires Valid() && fd in items
      modifies this
      ensures Valid()
      ensures Contents() == old(Contents())[fd := Registration(events, obj, old(Contents())[fd].revents & events)]
    {
      var index := items[fd].index;
      var e := pollEvents[index];
      ModifyKeepsInverse(pollEvents, items, e.(events := events, revents := e.revents & events), obj);
      items := items[fd := Item(index, obj)];
      pollEvents := pollEvents[index := e.(events := events, revents := e.revents & events)];
    }

    method Remove(fd: int)
      requires Valid() && fd in items
      modifies this
      ensures Valid() && Contents() == old(Contents()) - {fd}
    {
      RemoveKeepsInverse(pollEvents, items, fd);
      ghost var s', items' := SwapRemove(pollEvents, items[fd].index), RemoveItem(pollEvents, items, fd);
      var index := items[fd].index;
      var last := |pollEvents| - 1;
      if index != last {
        var moved := pollEvents[last].fd;
        pollEvents := pollEvents[index := pollEvents[last]][last := pollEvents[index]];
        items := items[moved := items[moved].(index := index)];
      }
      pollEvents := pollEvents[..last];
      items := items - {fd};
      assert pollEvents == s' && items == items';
    }

    /** ReadEvents, after poll() has filled in `revents`: it returns how many entries are
        ready, or something negative on error.  Each ready descriptor is reported once, with
        its own object. */
    method ReadEvents(n: int) returns (result: seq<(Events, Object)>, ghost who: seq<int>)
      requires Valid() && (n >= 0 ==> n == CountReady(pollEvents))
      ensures Valid() && |result| == |who| && Distinct(who)
      ensures forall k :: 0 <= k < |who| ==>
                            who[k] in items && result[k] == (Revents(pollEvents, items, who[k]), items[who[k]].obj)
      ensures n >= 0 ==> forall fd :: fd in items ==> (fd in who <==> Revents(pollEvents, items, fd) != 0)
      ensures n < 0 ==> result == []
    {
      result, who := [], [];
      if n <= 0 {
        CountReadyPrefix(pollEvents, 0);
        return;
      }
      var left := n;
      var i := 0;
      while left > 0 && i < |pollEvents|
        invariant 0 <= i <= |pollEvents| && left == n - CountReady(pollEvents[..i])
        invariant |result| == |who| && Distinct(who)
        invariant forall k :: 0 <= k < |who| ==>
                                who[k] in items && items[who[k]].index < i &&
                                result[k] == (Revents(pollEvents, items, who[k]), items[who[k]].obj)
        invariant forall fd :: fd in items && items[fd].index < i ==>
                  (fd in who <==> Revents(pollEvents, items, fd) != 0)
      {
        var e := pollEvents[i];
        assert pollEvents[..i + 1][..i] == pollEvents[..i];
        if e.revents != 0 {
          result, who := result + [(e.revents, items[e.fd].obj)], who + [e.fd];
          left := left - 1;
        }
        i := i + 1;
      }
      CountReadyPrefix(pollEvents, i);
      assert i == |pollEvents| ==> pollEvents[..i] == pollEvents;
      forall fd | fd in items && items[fd].index >= i ensures fd !in who && Revents(pollEvents, items, fd) == 0 {
      }
    }
  }
}
