/**
 The chunk allocator: SliceBuffer's free list (src/util/SliceBuffer.hxx) under
 MusicBuffer (src/MusicBuffer.cxx), and who owns its chunks.
 */
module MusicBuffer {
  import opened Prelude

  /** Slices are numbered by their place in the array.  The chain of free slices that the
      source threads through the slices themselves is the sequence `available`. */
  class SliceBuffer {
    const capacity: nat
    var nInitialized: nat
    var nAllocated: nat
    var available: seq<nat>
    /** The slices handed out and not freed since. */
    ghost var inUse: set<nat>

    ghost predicate Valid()
      reads this
    {
      && nInitialized <= capacity
      && Distinct(available)
      && nAllocated == |inUse|
      && (forall k :: k in available ==> k < nInitialized && k !in inUse)
      && (forall k :: k in inUse ==> k < nInitialized)
      && (forall k :: 0 <= k < nInitialized ==> k in inUse || k in available)
    }

    constructor (capacity: nat)
      ensures Valid() && this.capacity == capacity && inUse == {}
    {
      this.capacity := capacity;
      nInitialized, nAllocated, available, inUse := 0, 0, [], {};
    }

    /** Fails exactly when every slice is handed out; never hands out a slice twice. */
    method Allocate() returns (slice: Option<nat>)
      requires Valid()
      modifies this
      ensures Valid()
      ensures slice.None? <==> |old(inUse)| == capacity
      ensures slice.None? ==> inUse == old(inUse)
      ensures slice.Some? ==> slice.value < capacity && slice.value !in old(inUse)
      ensures slice.Some? ==> inUse == old(inUse) + {slice.value}
    {
      if available == [] {
        if nInitialized == capacity {
          AllOf(inUse, capacity);
          return None;
        }
        Grow();
      }
      assert available[0] in available;
      NotAll(inUse, capacity, available[0]);
      var first := Pop();
      slice := Some(first);
    }

    /** One more slice of the array is used for the first time. */
    method Grow()
      requires Valid() && available == [] && nInitialized < capacity
      modifies this`available, this`nInitialized
      ensures Valid() && available != []
    {
      available := [nInitialized];
      nInitialized := nInitialized + 1;
    }

    method Pop() returns (slice: nat)
      requires Valid() && available != []
      modifies this`available, this`nAllocated, this`inUse
      ensures Valid() && slice == old(available)[0] && slice < capacity
      ensures slice !in old(inUse) && inUse == old(inUse) + {slice}
    {
      slice := available[0];
      FirstAndRest(available);
      inUse := inUse + {slice};
      available := available[1..];
      nAllocated := nAllocated + 1;
    }

    method Free(slice: nat)
      requires Valid() && slice in inUse
      modifies this
      ensures Valid() && inUse == old(inUse) - {slice}
    {
      inUse := inUse - {slice};
      available := [slice] + available;
      nAllocated := nAllocated - 1;
      if nAllocated == 0 {
        // DiscardMemory()
        nInitialized := 0;
        available := [];
      }
    }
  }

  lemma FirstAndRest(s: seq<nat>)
    requires s != [] && Distinct(s)
    ensures Distinct(s[1..]) && s[0] in s && s[0] !in s[1..]
    ensures forall k :: k in s <==> k == s[0] || k in s[1..]
  {
    forall k | k in s && k != s[0] ensures k in s[1..] {
      var i :| 0 <= i < |s| && s[i] == k;
      assert s[1..][i - 1] == k;
    }
  }

  function Below(n: nat): set<nat> {
    if n == 0 then {} else Below(n - 1) + {n - 1}
  }

  lemma {:induction false} BelowHas(n: nat, k: nat)
    ensures k in Below(n) <==> k < n
  {
    if n > 0 {
      BelowHas(n - 1, k);
    }
  }

  lemma {:induction false} BelowSize(n: nat)
    ensures |Below(n)| == n
  {
    if n > 0 {
      BelowSize(n - 1);
      BelowHas(n - 1, n - 1);
    }
  }

  lemma AllOf(s: set<nat>, n: nat)
    requires forall k :: k in s <==> 0 <= k < n
    ensures |s| == n
  {
    BelowSize(n);
    forall k ensures k in Below(n) <==> k in s {
      if k >= 0 { BelowHas(n, k); }
    }
    assert s == Below(n);
  }

  lemma NotAll(s: set<nat>, n: nat, missing: nat)
    requires (forall k :: k in s ==> k < n) && missing < n && missing !in s
    ensures |s| < n
  {
    BelowSize(n);
    forall k | k in s + {missing} ensures k in Below(n) {
      BelowHas(n, k);
    }
    Fewer(s + {missing}, Below(n));
  }

  lemma {:induction false} Fewer(s: set<nat>, t: set<nat>)
    requires s <= t
    ensures |s| <= |t|
  {
    if s != {} {
      var x :| x in s;
      Fewer(s - {x}, t - {x});
    }
  }

  // --- ownership ----------------------------------------------------------------------

  /** A chunk in use: its slice, and the chunk attached to it for cross-fading. */
  datatype Chunk = Chunk(slice: nat, other: Option<nat>)

  /** Where chunks are: in the free list, or in one of the places that own them: the pipes,
      the decoder's current_chunk, a chunk the player carries from one pipe to another. */
  datatype Chunks = Chunks(free: set<nat>, places: seq<seq<Chunk>>)

  datatype Step =
    | Allocate(slice: nat, to: nat)            // MusicBuffer::Allocate()
    | Move(from: nat, i: nat, to: nat)         // Push(), Shift(): ownership moves
    | CrossFade(p: nat, i: nat, from: nat)     // chunk->other takes over a chunk
    | Return(p: nat, i: nat)                   // MusicBuffer::Return()

  predicate Enabled(c: Chunks, step: Step) {
    match step
    case Allocate(k, to) => k in c.free && to < |c.places|
    case Move(p, i, q) => p < |c.places| && i < |c.places[p]| && q < |c.places| && p != q
    case CrossFade(p, i, q) =>
      p < |c.places| && i < |c.places[p]| && q < |c.places| && p != q && c.places[q] != [] &&
      c.places[p][i].other == None && c.places[q][0].other == None
    case Return(p, i) => p < |c.places| && i < |c.places[p]|
  }

  function Without<T>(s: seq<T>, i: nat): seq<T>
    requires i < |s|
  {
    s[..i] + s[i + 1..]
  }

  /** Freeing a chunk frees what is attached to it. */
  function Next(c: Chunks, step: Step): Chunks
    requires Enabled(c, step)
  {
    match step
    case Allocate(k, to) => Chunks(c.free - {k}, c.places[to := c.places[to] + [Chunk(k, None)]])
    case Move(p, i, q) =>
      Chunks(c.free, c.places[p := Without(c.places[p], i)][q := c.places[q] + [c.places[p][i]]])
    case CrossFade(p, i, q) =>
      Chunks(c.free, c.places[p := c.places[p][i := c.places[p][i].(other := Some(c.places[q][0].slice))]]
                             [q := c.places[q][1..]])
    case Return(p, i) =>
      Chunks(c.free + Slices(c.places[p][i]), c.places[p := Without(c.places[p], i)])
  }

  /** The slices a chunk owns. */
  function Slices(c: Chunk): set<nat> {
    {c.slice} + if c.other.Some? then {c.other.value} else {}
  }

  /** How often a chunk, a place, and all places together own slice x. */
  function CountChunk(c: Chunk, x: nat): nat {
    (if c.slice == x then 1 else 0) + (if c.other == Some(x) then 1 else 0)
  }

  function Count(s: seq<Chunk>, x: nat): nat {
    if s == [] then 0 else CountChunk(s[0], x) + Count(s[1..], x)
  }

  function CountAll(places: seq<seq<Chunk>>, x: nat): nat {
    if places == [] then 0 else Count(places[0], x) + CountAll(places[1..], x)
  }

  /** Free, piped, held and attached chunks together are the buffer: every slice is in
      exactly one of these places, and nothing else is. */
  predicate Owned(c: Chunks, capacity: nat, x: nat) {
    (if x in c.free then 1 else 0) + CountAll(c.places, x) == if x < capacity then 1 else 0
  }

  ghost predicate Conserved(c: Chunks, capacity: nat) {
    forall x: nat :: Owned(c, capacity, x)
  }

  lemma {:induction false} CountConcat(s: seq<Chunk>, t: seq<Chunk>, x: nat)
    ensures Count(s + t, x) == Count(s, x) + Count(t, x)
  {
    if s == [] {
      assert s + t == t;
    } else {
      CountConcat(s[1..], t, x);
      assert (s + t)[1..] == s[1..] + t;
    }
  }

  lemma CountWithout(s: seq<Chunk>, i: nat, x: nat)
    requires i < |s|
    ensures Count(s, x) == Count(Without(s, i), x) + CountChunk(s[i], x)
  {
    CountConcat(s[..i], s[i + 1..], x);
    CountConcat(s[..i], [s[i]] + s[i + 1..], x);
    assert s == s[..i] + ([s[i]] + s[i + 1..]);
    assert ([s[i]] + s[i + 1..])[1..] == s[i + 1..];
  }

  lemma CountSet(s: seq<Chunk>, i: nat, c: Chunk, x: nat)
    requires i < |s|
    ensures Count(s[i := c], x) + CountChunk(s[i], x) == Count(s, x) + CountChunk(c, x)
  {
    CountWithout(s, i, x);
    CountWithout(s[i := c], i, x);
    assert Without(s[i := c], i) == Without(s, i);
  }

  lemma {:induction false} PlaceSet(places: seq<seq<Chunk>>, p: nat, s: seq<Chunk>, x: nat)
    requires p < |places|
    ensures CountAll(places[p := s], x) + Count(places[p], x) == CountAll(places, x) + Count(s, x)
  {
    if p > 0 {
      PlaceSet(places[1..], p - 1, s, x);
      assert places[p := s][1..] == places[1..][p - 1 := s];
    } else {
      assert places[0 := s][1..] == places[1..];
    }
  }

  /** A chunk in some place is not free, and its two slices are different. */
  lemma {:induction false} OwnedOnce(places: seq<seq<Chunk>>, p: nat, i: nat, x: nat)
    requires p < |places| && i < |places[p]|
    ensures CountAll(places, x) >= CountChunk(places[p][i], x)
  {
    if p > 0 {
      OwnedOnce(places[1..], p - 1, i, x);
    } else {
      CountWithout(places[0], i, x);
    }
  }

  /** Every step keeps every slice in exactly one place. */
  lemma StepConserves(c: Chunks, step: Step, capacity: nat, x: nat)
    requires Conserved(c, capacity) && Enabled(c, step)
    ensures Owned(Next(c, step), capacity, x)
  {
    assert Owned(c, capacity, x);
    match step
    case Allocate(k, to) =>
      CountConcat(c.places[to], [Chunk(k, None)], x);
      PlaceSet(c.places, to, c.places[to] + [Chunk(k, None)], x);
    case Move(p, i, q) =>
      var mid := c.places[p := Without(c.places[p], i)];
      CountWithout(c.places[p], i, x);
      CountConcat(c.places[q], [c.places[p][i]], x);
      PlaceSet(c.places, p, Without(c.places[p], i), x);
      PlaceSet(mid, q, c.places[q] + [c.places[p][i]], x);
    case CrossFade(p, i, q) =>
      var chunk := c.places[p][i].(other := Some(c.places[q][0].slice));
      CountSet(c.places[p], i, chunk, x);
      PlaceSet(c.places, p, c.places[p][i := chunk], x);
      PlaceSet(c.places[p := c.places[p][i := chunk]], q, c.places[q][1..], x);
    case Return(p, i) =>
      OwnedOnce(c.places, p, i, x);
      CountWithout(c.places[p], i, x);
      PlaceSet(c.places, p, Without(c.places[p], i), x);
  }

  lemma {:induction false} UnusedBufferConserved(n: nat, capacity: nat, x: nat)
    ensures Owned(Chunks(Below(capacity), seq(n, _ => [])), capacity, x)
  {
    BelowHas(capacity, x);
    if n > 0 {
      UnusedBufferConserved(n - 1, capacity, x);
      assert seq<seq<Chunk>>(n, _ => [])[1..] == seq(n - 1, _ => []);
    }
  }

  // --- sizes --------------------------------------------------------------------------

  /** How many slices a chunk, a place, and all places together own. */
  function SizeChunk(c: Chunk): nat { if c.other.Some? then 2 else 1 }

  function Size(s: seq<Chunk>): nat {
    if s == [] then 0 else SizeChunk(s[0]) + Size(s[1..])
  }

  function SizeAll(places: seq<seq<Chunk>>): nat {
    if places == [] then 0 else Size(places[0]) + SizeAll(places[1..])
  }

  /** Counting slice by slice, below n. */
  function SumChunk(c: Chunk, n: nat): nat {
    if n == 0 then 0 else SumChunk(c, n - 1) + CountChunk(c, n - 1)
  }

  function Sum(s: seq<Chunk>, n: nat): nat {
    if n == 0 then 0 else Sum(s, n - 1) + Count(s, n - 1)
  }

  function SumAll(places: seq<seq<Chunk>>, n: nat): nat {
    if n == 0 then 0 else SumAll(places, n - 1) + CountAll(places, n - 1)
  }

  lemma {:induction false} SumChunkIsSize(c: Chunk, n: nat)
    ensures SumChunk(c, n) == (if c.slice < n then 1 else 0) + (if c.other.Some? && c.other.value < n then 1 else 0)
  {
    if n > 0 {
      SumChunkIsSize(c, n - 1);
    }
  }

  lemma {:induction false} SumSplits(s: seq<Chunk>, n: nat)
    requires s != []
    ensures Sum(s, n) == SumChunk(s[0], n) + Sum(s[1..], n)
  {
    if n > 0 {
      SumSplits(s, n - 1);
    }
  }

  lemma {:induction false} SumAllSplits(places: seq<seq<Chunk>>, n: nat)
    requires places != []
    ensures SumAll(places, n) == Sum(places[0], n) + SumAll(places[1..], n)
  {
    if n > 0 {
      SumAllSplits(places, n - 1);
    }
  }

  lemma {:induction false} SumOfNothing(n: nat)
    ensures Sum([], n) == 0 && SumAll([], n) == 0
  {
    if n > 0 {
      SumOfNothing(n - 1);
    }
  }

  lemma {:induction false} SumIsSize(s: seq<Chunk>, n: nat)
    requires forall x: nat :: x >= n ==> Count(s, x) == 0
    ensures Sum(s, n) == Size(s)
  {
    SumOfNothing(n);
    if s != [] {
      SumSplits(s, n);
      SumChunkIsSize(s[0], n);
      assert CountChunk(s[0], s[0].slice) > 0 && Count(s, s[0].slice) > 0;
      assert s[0].other.Some? ==> CountChunk(s[0], s[0].other.value) > 0 && Count(s, s[0].other.value) > 0;
      assert forall x: nat :: x >= n ==> Count(s[1..], x) <= Count(s, x);
      SumIsSize(s[1..], n);
    }
  }

  lemma {:induction false} SumAllIsSize(places: seq<seq<Chunk>>, n: nat)
    requires forall x: nat :: x >= n ==> CountAll(places, x) == 0
    ensures SumAll(places, n) == SizeAll(places)
  {
    SumOfNothing(n);
    if places != [] {
      SumAllSplits(places, n);
      assert forall x: nat :: x >= n ==>
             Count(places[0], x) <= CountAll(places, x) && CountAll(places[1..], x) <= CountAll(places, x);
      SumIsSize(places[0], n);
      SumAllIsSize(places[1..], n);
    }
  }

  /** The members of a set below n. */
  function Part(s: set<nat>, n: nat): set<nat> {
    if n == 0 then {} else Part(s, n - 1) + (if n - 1 in s then {n - 1} else {})
  }

  lemma {:induction false} PartHas(s: set<nat>, n: nat, k: nat)
    ensures k in Part(s, n) <==> k < n && k in s
  {
    if n > 0 {
      PartHas(s, n - 1, k);
    }
  }

  lemma PartSize(s: set<nat>, n: nat)
    requires n > 0
    ensures |Part(s, n)| == |Part(s, n - 1)| + (if n - 1 in s then 1 else 0)
  {
    PartHas(s, n - 1, n - 1);
  }

  lemma {:induction false} PartAndRest(c: Chunks, capacity: nat, n: nat)
    requires Conserved(c, capacity) && n <= capacity
    ensures |Part(c.free, n)| + SumAll(c.places, n) == n
  {
    if n > 0 {
      PartAndRest(c, capacity, n - 1);
      assert Owned(c, capacity, n - 1);
      PartSize(c.free, n);
    }
  }

  /** Free, piped, held and attached chunks together are as many as the buffer has. */
  lemma SizesAddUp(c: Chunks, capacity: nat)
    requires Conserved(c, capacity)
    ensures |c.free| + SizeAll(c.places) == capacity
  {
    forall x: nat | x >= capacity ensures CountAll(c.places, x) == 0 && x !in c.free {
      assert Owned(c, capacity, x);
    }
    PartAndRest(c, capacity, capacity);
    SumAllIsSize(c.places, capacity);
    forall k ensures k in Part(c.free, capacity) <==> k in c.free {
      if k >= 0 { PartHas(c.free, capacity, k); }
    }
    assert Part(c.free, capacity) == c.free;
  }
}
