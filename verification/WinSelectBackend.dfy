/**
 The select() backend of the event loop (src/event/WinSelectBackend.cxx): an array of
 sockets to read and one to write, and for each socket its place in both.
 */
module WinSelectBackend {
  import opened Prelude

  type Socket = nat
  type Object = nat

  const FD_SETSIZE: nat := 64

  datatype Events = Events(read: bool, write: bool)

  const NOTHING := Events(false, false)

  function Either(a: Events, b: Events): Events { Events(a.read || b.read, a.write || b.write) }

  /** event_set[id], and Item::index[id] of every item. */
  datatype EventSet = EventSet(fds: seq<Socket>, index: map<Socket, int>)

  /** The array and the indices are inverse to each other; -1 stands for "not in the array". */
  ghost predicate Inverse(s: EventSet) {
    && |s.fds| <= FD_SETSIZE
    && (forall i :: 0 <= i < |s.fds| ==> s.fds[i] in s.index && s.index[s.fds[i]] == i)
    && (forall fd :: fd in s.index ==> -1 <= s.index[fd] < |s.fds|)
    && (forall fd :: fd in s.index && s.index[fd] >= 0 ==> s.fds[s.index[fd]] == fd)
  }

  /** Every socket has an index, and is in the array if it should be. */
  ghost predicate Holds(s: EventSet, known: set<Socket>, members: set<Socket>) {
    Inverse(s) && s.index.Keys == known && forall fd :: fd in s.fds <==> fd in members
  }

  lemma HoldsAt(s: EventSet, known: set<Socket>, members: set<Socket>, fd: Socket)
    requires Holds(s, known, members) && fd in known
    ensures s.index[fd] >= 0 <==> fd in members
  {
    if fd in s.fds {
      var i :| 0 <= i < |s.fds| && s.fds[i] == fd;
    }
  }

  function With(members: set<Socket>, fd: Socket, wanted: bool): set<Socket> {
    if wanted then members + {fd} else members - {fd}
  }

  /** CanModify: there is room, unless none is needed. */
  predicate CanModify(s: EventSet, fd: Socket, wanted: bool)
    requires fd in s.index
  {
    s.index[fd] < 0 && wanted ==> |s.fds| != FD_SETSIZE
  }

  /** Modify(Item&, …): append to the array, or swap with the last and remove. */
  method ModifySet(s: EventSet, fd: Socket, wanted: bool, ghost known: set<Socket>, ghost members: set<Socket>)
    returns (s': EventSet)
    requires Holds(s, known, members) && fd in known && CanModify(s, fd, wanted)
    ensures Holds(s', known, With(members, fd, wanted))
  {
    HoldsAt(s, known, members, fd);
    var index := s.index[fd];
    if index < 0 && wanted {
      s' := EventSet(s.fds + [fd], s.index[fd := |s.fds|]);
    } else if index >= 0 && !wanted {
      var last := |s.fds| - 1;
      var moved := s.fds[last];
      s' := EventSet(s.fds[index := moved][..last], s.index[moved := index][fd := -1]);
      RemoveHolds(s, fd, known, members);
    } else {
      s' := s;
    }
  }

  lemma RemoveHolds(s: EventSet, fd: Socket, known: set<Socket>, members: set<Socket>)
    requires Holds(s, known, members) && fd in known && s.index[fd] >= 0
    ensures var last := |s.fds| - 1;
            Holds(EventSet(s.fds[s.index[fd] := s.fds[last]][..last], s.index[s.fds[last] := s.index[fd]][fd := -1]),
                  known, members - {fd})
  {
    var index, last := s.index[fd], |s.fds| - 1;
    var fds := s.fds[index := s.fds[last]][..last];
    forall x | x in s.fds && x != fd ensures x in fds {
      var i :| 0 <= i < |s.fds| && s.fds[i] == x;
      assert fds[if i == last then index else i] == x;
    }
  }

  /** A new socket is in no array yet. */
  lemma NewHolds(s: EventSet, fd: Socket, known: set<Socket>, members: set<Socket>)
    requires Holds(s, known, members) && fd !in known
    ensures Holds(s.(index := s.index[fd := -1]), known + {fd}, members) && fd !in members
  {
  }

  lemma ForgetHolds(s: EventSet, fd: Socket, known: set<Socket>, members: set<Socket>)
    requires Holds(s, known, members) && fd in known && fd !in members
    ensures Holds(s.(index := s.index - {fd}), known - {fd}, members)
  {
  }

  class WinSelectBackend {
    var readSet: EventSet
    var writeSet: EventSet
    var objects: map<Socket, Object>
    /** Which events each socket is registered for. */
    ghost var readers: set<Socket>
    ghost var writers: set<Socket>

    ghost predicate Valid()
      reads this
    {
      Holds(readSet, objects.Keys, readers) && Holds(writeSet, objects.Keys, writers)
    }

    constructor ()
      ensures Valid() && objects == map[] && readers == writers == {}
    {
      readSet, writeSet, objects := EventSet([], map[]), EventSet([], map[]), map[];
      readers, writers := {}, {};
    }

    /** Both arrays, for a socket that has an item. */
    method ModifyBoth(fd: Socket, events: Events)
      requires Valid() && fd in objects
      requires CanModify(readSet, fd, events.read) && CanModify(writeSet, fd, events.write)
      modifies this`readSet, this`writeSet, this`readers, this`writers
      ensures Valid() && readers == With(old(readers), fd, events.read) &&
              writers == With(old(writers), fd, events.write)
    {
      readSet := ModifySet(readSet, fd, events.read, objects.Keys, readers);
      writeSet := ModifySet(writeSet, fd, events.write, objects.Keys, writers);
      readers, writers := With(readers, fd, events.read), With(writers, fd, events.write);
    }

    /** Add: refused if an array is full, and then nothing has changed. */
    method Add(fd: Socket, events: Events, obj: Object) returns (ok: bool)
      requires Valid() && fd !in objects
      modifies this
      ensures Valid()
      ensures ok <==> (events.read ==> old(|readSet.fds|) < FD_SETSIZE) &&
                      (events.write ==> old(|writeSet.fds|) < FD_SETSIZE)
      ensures ok ==> objects == old(objects)[fd := obj] &&
                     readers == With(old(readers), fd, events.read) && writers == With(old(writers), fd, events.write)
      ensures !ok ==> objects == old(objects) && readers == old(readers) && writers == old(writers)
    {
      ghost var before := objects;
      Emplace(fd, obj);
      if !CanModify(readSet, fd, events.read) || !CanModify(writeSet, fd, events.write) {
        Erase(fd);
        assert objects == before;
        return false;
      }
      ModifyBoth(fd, events);
      return true;
    }

    method Emplace(fd: Socket, obj: Object)
      requires Valid() && fd !in objects
      modifies this`readSet, this`writeSet, this`objects
      ensures Valid() && objects == old(objects)[fd := obj] && fd !in readers && fd !in writers
      ensures readSet.fds == old(readSet.fds) && writeSet.fds == old(writeSet.fds)
      ensures readSet.index[fd] == writeSet.index[fd] == -1
    {
      NewHolds(readSet, fd, objects.Keys, readers);
      NewHolds(writeSet, fd, objects.Keys, writers);
      readSet := readSet.(index := readSet.index[fd := -1]);
      writeSet := writeSet.(index := writeSet.index[fd := -1]);
      objects := objects[fd := obj];
    }

    method Erase(fd: Socket)
      requires Valid() && fd in objects && fd !in readers && fd !in writers
      modifies this`readSet, this`writeSet, this`objects
      ensures Valid() && objects == old(objects) - {fd}
    {
      ForgetHolds(readSet, fd, objects.Keys, readers);
      ForgetHolds(writeSet, fd, objects.Keys, writers);
      readSet := readSet.(index := readSet.index - {fd});
      writeSet := writeSet.(index := writeSet.index - {fd});
      objects := objects - {fd};
    }

    /** Modify: refused if an array is full, and then nothing has changed. */
    method Modify(fd: Socket, events: Events, obj: Object) returns (ok: bool)
      requires Valid() && fd in objects
      modifies this
      ensures Valid()
      ensures ok <==> (events.read && fd !in old(readers) ==> old(|readSet.fds|) < FD_SETSIZE) &&
                      (events.write && fd !in old(writers) ==> old(|writeSet.fds|) < FD_SETSIZE)
      ensures ok ==> objects == old(objects)[fd := obj] &&
                     readers == With(old(readers), fd, events.read) && writers == With(old(writers), fd, events.write)
      ensures !ok ==> objects == old(objects) && readers == old(readers) && writers == old(writers)
    {
      HoldsAt(readSet, objects.Keys, readers, fd);
      HoldsAt(writeSet, objects.Keys, writers, fd);
      if !CanModify(readSet, fd, events.read) || !CanModify(writeSet, fd, events.write) {
        return false;
      }
      ghost var known := objects.Keys;
      objects := objects[fd := obj];
      assert objects.Keys == known;
      ModifyBoth(fd, events);
      return true;
    }

    method Remove(fd: Socket)
      requires Valid() && fd in objects
      modifies this
      ensures Valid() && objects == old(objects) - {fd}
      ensures readers == old(readers) - {fd} && writers == old(writers) - {fd}
    {
      ModifyBoth(fd, NOTHING);
      Erase(fd);
    }

    /** ApplyReady: add the events to each of the sockets. */
    method ApplyReady(pending: map<Socket, Events>, src: seq<Socket>, events: Events) returns (r: map<Socket, Events>)
      requires forall fd :: fd in src ==> fd in pending
      ensures forall fd :: fd in r <==> fd in pending
      ensures forall fd :: fd in r ==> r[fd] == if fd in src then Either(pending[fd], events) else pending[fd]
    {
      r := pending;
      for k := 0 to |src|
        invariant forall fd :: fd in r <==> fd in pending
        invariant forall fd :: fd in r ==> r[fd] == if fd in src[..k] then Either(pending[fd], events) else pending[fd]
      {
        assert src[k] in src && src[k] in pending;
        r := r[src[k] := Either(r[src[k]], events)];
      }
      assert src[..|src|] == src;
    }

    /** ReadEvents, after select() has left the ready sockets in copies of the arrays, or has
        failed or timed out.  Each ready socket is reported once, with its own object.  `order`
        is the order in which the map of items is walked. */
    method ReadEvents(selected: bool, read: seq<Socket>, write: seq<Socket>, except: seq<Socket>, order: seq<Socket>)
      returns (result: seq<(Events, Object)>, ghost who: seq<Socket>)
      requires Valid()
      requires forall fd :: fd in read ==> fd in readSet.fds
      requires forall fd :: fd in write || fd in except ==> fd in writeSet.fds
      requires Distinct(order) && forall fd :: fd in order <==> fd in objects
      ensures |result| == |who| && Distinct(who)
      ensures selected ==> forall fd :: fd in who <==> fd in read || fd in write || fd in except
      ensures forall k :: 0 <= k < |who| ==>
                            who[k] in objects &&
                            result[k] == (Events(who[k] in read, who[k] in write || who[k] in except), objects[who[k]])
      ensures !selected ==> result == []
    {
      if !selected || (readSet.fds == [] && writeSet.fds == []) {
        return [], [];
      }
      var pending := map fd | fd in objects :: NOTHING;
      pending := ApplyReady(pending, read, Events(true, false));
      pending := ApplyReady(pending, write, Events(false, true));
      pending := ApplyReady(pending, except, Events(false, true));
      assert forall fd :: fd in pending ==> pending[fd] == Events(fd in read, fd in write || fd in except);
      assert forall fd :: fd in read || fd in write || fd in except ==> fd in pending;
      result, who := Report(pending, order);
    }

    /** The last loop of ReadEvents(), over the items in the given order. */
    method Report(pending: map<Socket, Events>, order: seq<Socket>)
      returns (result: seq<(Events, Object)>, ghost who: seq<Socket>)
      requires Distinct(order) && forall fd :: fd in order <==> fd in objects
      requires forall fd :: fd in objects <==> fd in pending
      ensures |result| == |who| && Distinct(who)
      ensures forall k :: 0 <= k < |who| ==> who[k] in pending && result[k] == (pending[who[k]], objects[who[k]])
      ensures forall fd :: fd in who <==> fd in pending && pending[fd] != NOTHING
    {
      result, who := [], [];
      for i := 0 to |order|
        invariant |result| == |who| && Distinct(who)
        invariant forall k :: 0 <= k < |who| ==> who[k] in pending && result[k] == (pending[who[k]], objects[who[k]])
        invariant forall fd :: fd in who <==> fd in order[..i] && fd in pending && pending[fd] != NOTHING
      {
        var fd := order[i];
        assert fd in order && fd !in order[..i];
        if pending[fd] != NOTHING {
          result, who := result + [(pending[fd], objects[fd])], who + [fd];
        }
      }
      assert order[..|order|] == order;
    }
  }
}
