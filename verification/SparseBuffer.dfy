/**
 Which parts of a buffer are defined (src/util/SparseBuffer.cxx).  The ordered map of the
 source, from the start to the end of each chunk, is a sequence sorted by start.
 */
module SparseBuffer {
  datatype Interval = Interval(start: nat, end: nat)

  /** The offset is in one of the chunks. */
  ghost predicate In(chunks: seq<Interval>, o: nat) {
    exists i :: 0 <= i < |chunks| && chunks[i].start <= o < chunks[i].end
  }

  predicate Sorted(chunks: seq<Interval>) {
    forall i, j :: 0 <= i < j < |chunks| ==> chunks[i].start < chunks[j].start
  }

  /** Chunks i and j, in this order, do not touch. */
  predicate Apart(chunks: seq<Interval>, i: nat, j: nat)
    requires i < |chunks| && j < |chunks|
  {
    chunks[i].end < chunks[j].start
  }

  /** All chunks are apart and within the buffer, the last one ends where the buffer ends,
      and it is the only one that may be empty. */
  predicate IsSparseMap(chunks: seq<Interval>, size: nat) {
    && |chunks| > 0 && chunks[|chunks| - 1].end == size
    && (forall i :: 0 <= i < |chunks| ==> chunks[i].start <= chunks[i].end <= size)
    && (forall i :: 0 <= i < |chunks| - 1 ==> chunks[i].start < chunks[i].end)
    && (forall i, j :: 0 <= i < j < |chunks| ==> Apart(chunks, i, j))
  }

  lemma SparseIsSorted(chunks: seq<Interval>, size: nat)
    requires IsSparseMap(chunks, size)
    ensures Sorted(chunks)
  {
    forall i, j | 0 <= i < j < |chunks| ensures chunks[i].start < chunks[j].start {
      assert Apart(chunks, i, j);
    }
  }

  /** Between two neighbours, and before the first chunk, nothing is defined. */
  lemma Gap(chunks: seq<Interval>, size: nat, k: nat, o: nat)
    requires IsSparseMap(chunks, size) && k <= |chunks|
    requires k == 0 || o >= chunks[k - 1].end
    requires k == |chunks| || o < chunks[k].start
    ensures !In(chunks, o)
  {
    forall i | 0 <= i < |chunks| ensures !(chunks[i].start <= o < chunks[i].end) {
      if i < k - 1 {
        assert Apart(chunks, i, k - 1);
      } else if k < i {
        assert Apart(chunks, k, i);
      }
    }
  }

  /** What SparseMap::Check promises: a hole of that size, then a chunk of that size. */
  ghost predicate Classifies(chunks: seq<Interval>, size: nat, offset: nat, hole: nat, chunk: nat) {
    && offset + hole + chunk <= size
    && (forall o :: offset <= o < offset + hole ==> !In(chunks, o))
    && (forall o :: offset + hole <= o < offset + hole + chunk ==> In(chunks, o))
    && (offset + hole < size ==> chunk > 0)
    && (offset + hole + chunk < size ==> !In(chunks, offset + hole + chunk))
  }

  lemma ChunkFollows(chunks: seq<Interval>, size: nat, k: nat, offset: nat)
    requires IsSparseMap(chunks, size) && k < |chunks| && chunks[k].start <= offset < chunks[k].end
    ensures Classifies(chunks, size, offset, 0, chunks[k].end - offset)
  {
    if chunks[k].end < size {
      assert k < |chunks| - 1 && Apart(chunks, k, k + 1);
      Gap(chunks, size, k + 1, chunks[k].end);
    }
  }

  lemma HoleFollows(chunks: seq<Interval>, size: nat, k: nat, offset: nat)
    requires IsSparseMap(chunks, size) && k < |chunks| && offset < chunks[k].start
    requires k == 0 || offset >= chunks[k - 1].end
    ensures Classifies(chunks, size, offset, chunks[k].start - offset, chunks[k].end - chunks[k].start)
  {
    forall o | offset <= o < chunks[k].start ensures !In(chunks, o) {
      Gap(chunks, size, k, o);
    }
    if chunks[k].end < size {
      assert k < |chunks| - 1 && Apart(chunks, k, k + 1);
      Gap(chunks, size, k + 1, chunks[k].end);
    }
  }

  // --- Commit ----------------------------------------------------------------------------

  function Later(a: nat, b: nat): nat { if a > b then a else b }

  /** Chunks p and p + 1 become one. */
  function Merge(chunks: seq<Interval>, p: nat): seq<Interval>
    requires p + 1 < |chunks|
  {
    chunks[..p] + [Interval(chunks[p].start, Later(chunks[p].end, chunks[p + 1].end))] + chunks[p + 2..]
  }

  lemma MergeCovers(chunks: seq<Interval>, p: nat, o: nat)
    requires p + 1 < |chunks| && chunks[p].start <= chunks[p + 1].start <= chunks[p].end
    ensures In(Merge(chunks, p), o) <==> In(chunks, o)
  {
    var m := Merge(chunks, p);
    if In(chunks, o) {
      var i :| 0 <= i < |chunks| && chunks[i].start <= o < chunks[i].end;
      var j := if i <= p then i else i - 1;
      assert m[j].start <= o < m[j].end;
    }
    if In(m, o) {
      var j :| 0 <= j < |m| && m[j].start <= o < m[j].end;
      var i := if j < p || (j == p && o < chunks[p].end) then j else j + 1;
      assert chunks[i].start <= o < chunks[i].end;
    }
  }

  lemma MergeSame(chunks: seq<Interval>, p: nat)
    requires p + 1 < |chunks| && chunks[p].start <= chunks[p + 1].start <= chunks[p].end
    ensures forall o :: In(Merge(chunks, p), o) <==> In(chunks, o)
  {
    forall o ensures In(Merge(chunks, p), o) <==> In(chunks, o) {
      MergeCovers(chunks, p, o);
    }
  }

  /** While chunk k is being merged with its neighbours: it may overlap them. */
  predicate Collapsing(chunks: seq<Interval>, size: nat, k: nat) {
    && k < |chunks| && Sorted(chunks)
    && (forall i :: 0 <= i < |chunks| ==> chunks[i].start <= chunks[i].end <= size)
    && (forall i :: 0 <= i < |chunks| && (i == k || i < |chunks| - 1) ==> chunks[i].start < chunks[i].end)
    && (forall i, j :: 0 <= i < j < |chunks| && i != k && j != k ==> Apart(chunks, i, j))
    && (chunks[|chunks| - 1].end == size || (k == |chunks| - 1 && k > 0 && chunks[k - 1].end == size))
  }

  lemma MergeAt(chunks: seq<Interval>, p: nat)
    requires p + 1 < |chunks|
    ensures |Merge(chunks, p)| == |chunks| - 1
    ensures forall i :: 0 <= i < |chunks| - 1 && i != p ==> Merge(chunks, p)[i] == chunks[if i < p then i else i + 1]
    ensures Merge(chunks, p)[p] == Interval(chunks[p].start, Later(chunks[p].end, chunks[p + 1].end))
  {
  }

  lemma MergeSorted(chunks: seq<Interval>, p: nat)
    requires Sorted(chunks) && p + 1 < |chunks|
    ensures Sorted(Merge(chunks, p))
  {
    MergeAt(chunks, p);
    var m := Merge(chunks, p);
    forall i, j | 0 <= i < j < |m| ensures m[i].start < m[j].start {
      var i', j' := if i <= p then i else i + 1, if j <= p then j else j + 1;
      assert chunks[i'].start < chunks[j'].start;
    }
  }

  lemma MergeKeepsCollapsing(chunks: seq<Interval>, size: nat, p: nat, k: nat)
    requires Collapsing(chunks, size, k) && p + 1 < |chunks| && p <= k <= p + 1
    requires chunks[p + 1].start <= chunks[p].end
    ensures Collapsing(Merge(chunks, p), size, p)
    ensures k == p && k > 0 && Apart(chunks, k - 1, k) ==> Apart(Merge(chunks, p), k - 1, k)
  {
    MergeAt(chunks, p);
    MergeSorted(chunks, p);
    var m := Merge(chunks, p);
    forall i, j | 0 <= i < j < |m| && i != p && j != p ensures Apart(m, i, j) {
      assert Apart(chunks, if i < p then i else i + 1, if j < p then j else j + 1);
    }
  }

  /** When chunk k is apart from its neighbours, all chunks are apart. */
  lemma Collapsed(chunks: seq<Interval>, size: nat, k: nat)
    requires Collapsing(chunks, size, k)
    requires k > 0 ==> Apart(chunks, k - 1, k)
    requires k + 1 < |chunks| ==> Apart(chunks, k, k + 1)
    ensures IsSparseMap(chunks, size)
  {
    forall i, j | 0 <= i < j < |chunks| ensures Apart(chunks, i, j) {
      if j == k && i < k - 1 {
        assert Apart(chunks, i, k - 1);
      } else if i == k && j > k + 1 {
        assert Apart(chunks, k + 1, j);
      }
    }
  }

  /** map.emplace(), and the new end if the chunk was there already. */
  function Emplace(chunks: seq<Interval>, k: nat, start: nat, end: nat): seq<Interval>
    requires k <= |chunks|
  {
    if k < |chunks| && chunks[k].start == start
    then chunks[k := Interval(start, Later(chunks[k].end, end))]
    else chunks[..k] + [Interval(start, end)] + chunks[k..]
  }

  lemma EmplaceCovers(chunks: seq<Interval>, k: nat, start: nat, end: nat, o: nat)
    requires k <= |chunks|
    ensures In(Emplace(chunks, k, start, end), o) <==> In(chunks, o) || start <= o < end
  {
    var m := Emplace(chunks, k, start, end);
    var there := k < |chunks| && chunks[k].start == start;
    if In(chunks, o) {
      var i :| 0 <= i < |chunks| && chunks[i].start <= o < chunks[i].end;
      var j := if i < k || there then i else i + 1;
      assert m[j].start <= o < m[j].end;
    }
    if start <= o < end {
      assert m[k].start <= o < m[k].end;
    }
    if In(m, o) && !(start <= o < end) {
      var j :| 0 <= j < |m| && m[j].start <= o < m[j].end;
      var i := if j <= k then j else if there then j else j - 1;
      assert j != k || there;
      assert chunks[i].start <= o < chunks[i].end;
    }
  }

  lemma ExtendCollapsing(chunks: seq<Interval>, size: nat, k: nat, end: nat)
    requires IsSparseMap(chunks, size) && k < |chunks| && chunks[k].start < end <= size
    ensures Collapsing(chunks[k := Interval(chunks[k].start, Later(chunks[k].end, end))], size, k)
  {
    SparseIsSorted(chunks, size);
    var m := chunks[k := Interval(chunks[k].start, Later(chunks[k].end, end))];
    forall i, j | 0 <= i < j < |m| && i != k && j != k ensures Apart(m, i, j) {
      assert Apart(chunks, i, j);
    }
  }

  lemma InsertSorted(chunks: seq<Interval>, k: nat, added: Interval)
    requires Sorted(chunks) && k <= |chunks|
    requires k < |chunks| ==> chunks[k].start > added.start
    requires forall i :: 0 <= i < k ==> chunks[i].start < added.start
    ensures Sorted(chunks[..k] + [added] + chunks[k..])
  {
  }

  lemma InsertCollapsing(chunks: seq<Interval>, size: nat, k: nat, start: nat, end: nat)
    requires IsSparseMap(chunks, size) && start < end <= size && k <= |chunks|
    requires k < |chunks| ==> chunks[k].start > start
    requires forall i :: 0 <= i < k ==> chunks[i].start < start
    ensures Collapsing(chunks[..k] + [Interval(start, end)] + chunks[k..], size, k)
  {
    SparseIsSorted(chunks, size);
    InsertSorted(chunks, k, Interval(start, end));
    var m := chunks[..k] + [Interval(start, end)] + chunks[k..];
    forall i, j | 0 <= i < j < |m| && i != k && j != k ensures Apart(m, i, j) {
      assert Apart(chunks, if i < k then i else i - 1, if j < k then j else j - 1);
    }
  }

  lemma EmplaceCollapsing(chunks: seq<Interval>, size: nat, k: nat, start: nat, end: nat)
    requires IsSparseMap(chunks, size) && start < end <= size && k <= |chunks|
    requires k < |chunks| ==> chunks[k].start >= start
    requires forall i :: 0 <= i < k ==> chunks[i].start < start
    ensures Collapsing(Emplace(chunks, k, start, end), size, k)
  {
    if k < |chunks| && chunks[k].start == start {
      ExtendCollapsing(chunks, size, k, end);
    } else {
      InsertCollapsing(chunks, size, k, start, end);
    }
  }

  class SparseMap {
    var chunks: seq<Interval>
    const size: nat

    ghost predicate Valid()
      reads this
    {
      IsSparseMap(chunks, size)
    }

    constructor (size: nat)
      requires size > 0
      ensures Valid() && this.size == size && forall o :: !In(chunks, o)
    {
      this.size := size;
      chunks := [Interval(size, size)];
    }

    /** map.lower_bound() */
    method LowerBound(offset: nat) returns (k: nat)
      requires Valid()
      ensures k <= |chunks| && (k < |chunks| ==> chunks[k].start >= offset)
      ensures forall i :: 0 <= i < k ==> chunks[i].start < offset
    {
      k := 0;
      while k < |chunks| && chunks[k].start < offset
        invariant k <= |chunks| && forall i :: 0 <= i < k ==> chunks[i].start < offset
      {
        k := k + 1;
      }
    }

    method Check(offset: nat) returns (hole: nat, chunk: nat)
      requires Valid() && offset < size
      ensures Classifies(chunks, size, offset, hole, chunk)
    {
      var i := LowerBound(offset);
      if i == |chunks| {
        ChunkFollows(chunks, size, i - 1, offset);
        return 0, chunks[i - 1].end - offset;
      }
      if offset == chunks[i].start {
        ChunkFollows(chunks, size, i, offset);
        return 0, chunks[i].end - offset;
      }
      if i == 0 {
        HoleFollows(chunks, size, i, offset);
        return chunks[i].start - offset, chunks[i].end - chunks[i].start;
      }
      if offset >= chunks[i - 1].end {
        HoleFollows(chunks, size, i, offset);
        return chunks[i].start - offset, chunks[i].end - chunks[i].start;
      }
      ChunkFollows(chunks, size, i - 1, offset);
      return 0, chunks[i - 1].end - offset;
    }

    /** Commit: the range becomes defined, and nothing else changes. */
    method Commit(start: nat, end: nat)
      requires Valid() && start < end <= size
      modifies this
      ensures Valid() && forall o: nat :: In(chunks, o) <==> In(old(chunks), o) || start <= o < end
    {
      var k := LowerBound(start);
      forall o: nat ensures In(Emplace(chunks, k, start, end), o) <==> In(chunks, o) || start <= o < end {
        EmplaceCovers(chunks, k, start, end, o);
      }
      EmplaceCollapsing(chunks, size, k, start, end);
      chunks := Emplace(chunks, k, start, end);
      k := CollapsePrevious(k);
      CollapseNext(k);
    }

    method CollapsePrevious(i: nat) returns (k: nat)
      requires Collapsing(chunks, size, i)
      modifies this
      ensures Collapsing(chunks, size, k) && (k > 0 ==> Apart(chunks, k - 1, k))
      ensures forall o :: In(chunks, o) <==> In(old(chunks), o)
    {
      k := i;
      while k != 0
        invariant Collapsing(chunks, size, k)
        invariant forall o :: In(chunks, o) <==> In(old(chunks), o)
      {
        if chunks[k - 1].end < chunks[k].start {
          break;
        }
        MergeSame(chunks, k - 1);
        MergeKeepsCollapsing(chunks, size, k - 1, k);
        chunks := Merge(chunks, k - 1);
        k := k - 1;
      }
    }

    method CollapseNext(k: nat)
      requires Collapsing(chunks, size, k) && (k > 0 ==> Apart(chunks, k - 1, k))
      modifies this
      ensures Valid() && forall o :: In(chunks, o) <==> In(old(chunks), o)
    {
      while k + 1 < |chunks| && chunks[k].end >= chunks[k + 1].start
        invariant Collapsing(chunks, size, k) && (k > 0 ==> Apart(chunks, k - 1, k))
        invariant forall o :: In(chunks, o) <==> In(old(chunks), o)
        decreases |chunks|
      {
        MergeSame(chunks, k);
        MergeKeepsCollapsing(chunks, size, k, k);
        chunks := Merge(chunks, k);
      }
      Collapsed(chunks, size, k);
    }
  }
}
