/**
 MusicBuffer (src/MusicBuffer.cxx) with the slices it hands out: whoever owns chunks, the
 allocator's own fields say the same.
 */
module ChunkOwners {
  import opened Prelude
  import opened MusicBuffer

  /** The slices that are not handed out. */
  ghost function FreeOf(inUse: set<nat>, capacity: nat): set<nat> { Below(capacity) - inUse }

  lemma FreeHas(inUse: set<nat>, capacity: nat, x: nat)
    ensures x in FreeOf(inUse, capacity) <==> x < capacity && x !in inUse
  {
    BelowHas(capacity, x);
  }

  /** A slice is handed out if and only if somebody owns it. */
  lemma InUseIsOwned(inUse: set<nat>, places: seq<seq<Chunk>>, capacity: nat, x: nat)
    requires Conserved(Chunks(FreeOf(inUse, capacity), places), capacity) && forall k :: k in inUse ==> k < capacity
    ensures x in inUse <==> CountAll(places, x) == 1
    ensures CountAll(places, x) <= 1
  {
    assert Owned(Chunks(FreeOf(inUse, capacity), places), capacity, x);
    FreeHas(inUse, capacity, x);
  }

  lemma SizeWithin(s: set<nat>, capacity: nat)
    requires forall k :: k in s ==> k < capacity
    ensures |FreeOf(s, capacity)| + |s| == capacity
  {
    BelowSize(capacity);
    forall k | k in s ensures k in Below(capacity) {
      BelowHas(capacity, k);
    }
    assert Below(capacity) == FreeOf(s, capacity) + s;
  }

  /** The two slices of a chunk are different, and both are handed out. */
  lemma ChunkInUse(inUse: set<nat>, places: seq<seq<Chunk>>, capacity: nat, p: nat, i: nat)
    requires Conserved(Chunks(FreeOf(inUse, capacity), places), capacity) && forall k :: k in inUse ==> k < capacity
    requires p < |places| && i < |places[p]|
    ensures var c := places[p][i];
            c.slice in inUse && (c.other.Some? ==> c.other.value in inUse && c.other.value != c.slice)
  {
    var c := places[p][i];
    OwnedOnce(places, p, i, c.slice);
    InUseIsOwned(inUse, places, capacity, c.slice);
    if c.other.Some? {
      OwnedOnce(places, p, i, c.other.value);
      InUseIsOwned(inUse, places, capacity, c.other.value);
    }
  }

  class OwnedBuffer {
    const buffer: SliceBuffer
    /** Who owns which chunks: the pipes, the decoder, the player. */
    var places: seq<seq<Chunk>>

    ghost function Ledger(): Chunks
      reads this, buffer
    {
      Chunks(FreeOf(buffer.inUse, buffer.capacity), places)
    }

    ghost predicate Valid()
      reads this, buffer
    {
      buffer.Valid() && Conserved(Ledger(), buffer.capacity)
    }

    /** A new buffer, and n owners that own nothing. */
    constructor (capacity: nat, n: nat)
      ensures Valid() && fresh(buffer) && buffer.capacity == capacity && |places| == n && SizeAll(places) == 0
    {
      buffer := new SliceBuffer(capacity);
      places := seq(n, _ => []);
      new;
      assert FreeOf(buffer.inUse, capacity) == Below(capacity);
      forall x: nat ensures Owned(Ledger(), capacity, x) {
        UnusedBufferConserved(n, capacity, x);
      }
      SizesAreCounted();
    }

    /** The allocator's fields count what is owned. */
    lemma SizesAreCounted()
      requires Valid()
      ensures buffer.nAllocated == SizeAll(places) <= buffer.capacity
      ensures forall x: nat :: x in buffer.inUse <==> CountAll(places, x) == 1
      ensures forall x: nat :: CountAll(places, x) <= 1
    {
      SizesAddUp(Ledger(), buffer.capacity);
      SizeWithin(buffer.inUse, buffer.capacity);
      forall x: nat ensures (x in buffer.inUse <==> CountAll(places, x) == 1) && CountAll(places, x) <= 1 {
        InUseIsOwned(buffer.inUse, places, buffer.capacity, x);
      }
    }

    /** The invariant after a step that both the ledger and the allocator have made. */
    ghost method Settle(before: Chunks, step: Step)
      requires buffer.Valid() && Conserved(before, buffer.capacity) && Enabled(before, step) &&
               Ledger() == Next(before, step)
      ensures Valid()
    {
      forall x: nat ensures Owned(Ledger(), buffer.capacity, x) {
        StepConserves(before, step, buffer.capacity, x);
      }
    }

    /** Allocate(): refused exactly when the chunks that are owned are all there are. */
    method Allocate(to: nat) returns (slice: Option<nat>)
      requires Valid() && to < |places|
      modifies this, buffer
      ensures Valid() && buffer.nAllocated == SizeAll(places)
      ensures slice.None? <==> old(SizeAll(places)) == buffer.capacity
      ensures slice.None? ==> places == old(places) && buffer.inUse == old(buffer.inUse)
      ensures slice.Some? ==>
                Enabled(old(Ledger()), Step.Allocate(slice.value, to)) &&
                  Ledger() == Next(old(Ledger()), Step.Allocate(slice.value, to))
    {
      SizesAreCounted();
      ghost var before := Ledger();
      slice := buffer.Allocate();
      if slice.Some? {
        FreeHas(old(buffer.inUse), buffer.capacity, slice.value);
        places := places[to := places[to] + [Chunk(slice.value, None)]];
        Settle(before, Step.Allocate(slice.value, to));
      }
      SizesAreCounted();
    }

    /** Push(), Shift(), or attaching a chunk for a cross-fade: no slice changes hands with the
        allocator. */
    method Pass(step: Step)
      requires Valid() && (step.Move? || step.CrossFade?) && Enabled(Ledger(), step)
      modifies this
      ensures Valid() && Ledger() == Next(old(Ledger()), step) &&
              buffer.nAllocated == SizeAll(places) == old(SizeAll(places))
    {
      SizesAreCounted();
      ghost var before := Ledger();
      match step {
        case Move(p, i, q) =>
          places := places[p := Without(places[p], i)][q := places[q] + [places[p][i]]];
        case CrossFade(p, i, q) =>
          places := places[p := places[p][i := places[p][i].(other := Some(places[q][0].slice))]][q := places[q][1..]];
      }
      Settle(before, step);
      SizesAreCounted();
    }

    /** Return() of a chunk that is linked to the ones after it, as in a pipe that goes away: they
        are returned first, the last one first. */
    method ReturnLinked(p: nat, i: nat)
      requires Valid() && p < |places| && i < |places[p]|
      modifies this, buffer
      ensures Valid() && buffer.nAllocated == SizeAll(places)
      ensures places == old(places)[p := old(places)[p][..i]]
    {
      var n := |places[p]|;
      assert places[p][..n] == places[p];
      while n > i
        invariant i <= n <= |old(places)[p]| && Valid() && places == old(places)[p := old(places)[p][..n]]
      {
        n := n - 1;
        assert Without(places[p], n) == old(places)[p][..n];
        Return(p, n);
      }
      SizesAreCounted();
    }

    /** Return() of a chunk that is linked to no other: the attached chunk is freed first, then
        the chunk itself. */
    method Return(p: nat, i: nat)
      requires Valid() && p < |places| && i < |places[p]|
      modifies this, buffer
      ensures Valid() && Ledger() == Next(old(Ledger()), Step.Return(p, i)) && buffer.nAllocated == SizeAll(places)
    {
      ghost var before, inUse := Ledger(), buffer.inUse;
      var chunk := places[p][i];
      ChunkInUse(buffer.inUse, places, buffer.capacity, p, i);
      if chunk.other.Some? {
        buffer.Free(chunk.other.value);
      }
      buffer.Free(chunk.slice);
      places := places[p := Without(places[p], i)];
      ReturnedAreFree(inUse, buffer.capacity, Slices(chunk));
      Settle(before, Step.Return(p, i));
      SizesAreCounted();
    }
  }

  /** What owners may do with chunks. */
  datatype Op = OpAllocate(to: nat) | OpPass(step: Step) | OpReturn(p: nat, i: nat) | OpReturnLinked(p: nat, i: nat)

  /** Any history from an unused buffer on, where operations on chunks that nobody has do
      nothing: what the allocator counts is what is owned, no slice is owned twice, and an
      allocation is refused exactly when everything is owned. */
  method Drive(capacity: nat, n: nat, ops: seq<Op>) returns (places: seq<seq<Chunk>>, nAllocated: nat, full: bool)
    ensures |places| == n && nAllocated == SizeAll(places) <= capacity
    ensures forall x: nat :: CountAll(places, x) <= (if x < capacity then 1 else 0)
    ensures n > 0 ==> (full <==> nAllocated == capacity)
  {
    var b := new OwnedBuffer(capacity, n);
    for k := 0 to |ops|
      invariant fresh(b) && fresh(b.buffer) && b.Valid() && b.buffer.capacity == capacity && |b.places| == n
    {
      match ops[k]
      case OpAllocate(to) =>
        if to < n {
          var _ := b.Allocate(to);
        }
      case OpPass(step) =>
        if (step.Move? || step.CrossFade?) && Enabled(Chunks({}, b.places), step) {
          b.Pass(step);
        }
      case OpReturn(p, i) =>
        if p < n && i < |b.places[p]| {
          b.Return(p, i);
        }
      case OpReturnLinked(p, i) =>
        if p < n && i < |b.places[p]| {
          b.ReturnLinked(p, i);
        }
    }
    b.SizesAreCounted();
    forall x: nat ensures CountAll(b.places, x) <= (if x < capacity then 1 else 0) {
      assert Owned(b.Ledger(), capacity, x);
    }
    places, nAllocated, full := b.places, b.buffer.nAllocated, false;
    if n > 0 {
      var slice := b.Allocate(0);
      full := slice.None?;
    }
  }

  lemma ReturnedAreFree(inUse: set<nat>, capacity: nat, slices: set<nat>)
    requires slices <= inUse && forall k :: k in inUse ==> k < capacity
    ensures FreeOf(inUse - slices, capacity) == FreeOf(inUse, capacity) + slices
  {
    forall k | k in slices ensures k in Below(capacity) {
      BelowHas(capacity, k);
    }
  }
}
