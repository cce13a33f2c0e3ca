/**
 The linked list behind the music pipe (src/MusicPipe.cxx) and the consumer that
 walks it (src/output/SharedPipeConsumer.cxx), as objects on the heap.
 */
module MusicPipe {
  import opened Prelude
  import opened PipeCursor

  class MusicChunk {
    var next: MusicChunk?

    constructor ()
      ensures next == null
    {
      next := null;
    }
  }

  class Pipe {
    var head: MusicChunk?
    /** The source keeps `tail_r`, the address of the slot the next chunk goes into.  Here
        it is the chunk owning that slot, or null for the slot `head`. */
    var tail: MusicChunk?
    var size: nat
    /** The chunks in the list, head first. */
    ghost var contents: seq<MusicChunk>

    ghost predicate Valid()
      reads this, contents
    {
      && size == |contents|
      && Distinct(contents)
      && head == Link(contents, 0)
      && tail == (if contents == [] then null else contents[|contents| - 1])
      && forall i :: 0 <= i < |contents| ==> contents[i].next == Link(contents, i + 1)
    }

    constructor ()
      ensures Valid() && contents == []
    {
      head, tail, size, contents := null, null, 0, [];
    }

    method Push(chunk: MusicChunk)
      requires Valid() && chunk !in contents
      modifies this, chunk, contents
      ensures Valid() && contents == old(contents) + [chunk]
    {
      chunk.next := null;
      if tail == null {
        head := chunk;
      } else {
        tail.next := chunk;
      }
      tail := chunk;
      size := size + 1;
      contents := contents + [chunk];
    }

    method Peek() returns (chunk: MusicChunk?)
      requires Valid()
      ensures contents == [] ==> chunk == null
      ensures contents != [] ==> chunk == contents[0]
    {
      chunk := head;
    }

    method Shift() returns (chunk: MusicChunk?)
      requires Valid()
      modifies this, contents
      ensures Valid()
      ensures old(contents) == [] ==> chunk == null && contents == []
      ensures old(contents) != [] ==> chunk == old(contents)[0] && chunk.next == null && contents == old(contents)[1..]
    {
      chunk := head;
      if chunk != null {
        head := chunk.next;
        chunk.next := null;
        size := size - 1;
        if head == null {
          assert size == 0 && tail == chunk;
          tail := null;
        } else {
          assert size > 0 && tail != chunk;
        }
        contents := contents[1..];
      }
    }

    /** Returns the chunks to the buffer, oldest first. */
    method Clear() returns (freed: seq<MusicChunk>)
      requires Valid()
      modifies this, contents
      ensures Valid() && contents == [] && freed == old(contents)
    {
      freed := [];
      while head != null
        invariant Valid() && |freed| <= |old(contents)|
        invariant freed == old(contents)[..|freed|] && contents == old(contents)[|freed|..]
        decreases |contents|
      {
        var chunk := Shift();
        freed := freed + [chunk];
      }
    }

    method Contains(chunk: MusicChunk?) returns (found: bool)
      requires Valid()
      ensures found <==> chunk != null && chunk in contents
    {
      var i := head;
      ghost var k := 0;
      while i != null
        invariant k <= |contents| && i == Link(contents, k) && (chunk == null || chunk !in contents[..k])
        decreases |contents| - k
      {
        if i == chunk {
          return true;
        }
        i := i.next;
        k := k + 1;
      }
      return false;
    }
  }

  /** The k-th chunk of a list, or null past its end. */
  ghost function Link(contents: seq<MusicChunk>, k: nat): MusicChunk? {
    if k < |contents| then contents[k] else null
  }

  /** SharedPipeConsumer: its methods do on the heap what PipeCursor says on values. */
  class SharedPipeConsumer {
    var pipe: Pipe
    var chunk: MusicChunk?
    var consumed: bool

    ghost predicate Valid()
      reads this, pipe, pipe.contents
    {
      pipe.Valid() && (chunk != null ==> chunk in pipe.contents)
    }

    ghost function State(): Cursor<MusicChunk>
      reads this
    {
      Cursor(if chunk == null then None else Some(chunk), consumed)
    }

    constructor (pipe: Pipe)
      requires pipe.Valid()
      ensures Valid() && this.pipe == pipe && State().chunk == None
    {
      this.pipe, chunk, consumed := pipe, null, false;
    }

    method Get() returns (r: MusicChunk?)
      requires Valid()
      modifies this
      ensures Valid() && pipe == old(pipe)
      ensures State() == Advance(old(State()), pipe.contents)
      ensures Got(old(State()), pipe.contents) == if r == null then None else Some(r)
    {
      if chunk != null {
        ghost var k :| 0 <= k < |pipe.contents| && pipe.contents[k] == chunk;
        NextOfAt(pipe.contents, k);
        if !consumed {
          return chunk;
        }
        if chunk.next == null {
          return null;
        }
        consumed := false;
        chunk := chunk.next;
        return chunk;
      } else {
        consumed := false;
        chunk := pipe.Peek();
        return chunk;
      }
    }

    method IsConsumed(c: MusicChunk) returns (r: bool)
      requires Valid() && c in pipe.contents
      ensures r <==> PipeCursor.IsConsumed(State(), pipe.contents, c)
    {
      if chunk == null {
        return false;
      }
      if c != chunk {
        return true;
      }
      ghost var k :| 0 <= k < |pipe.contents| && pipe.contents[k] == c;
      NextOfAt(pipe.contents, k);
      return consumed && c.next == null;
    }

    /** Consume(): the asserted precondition is that the chunk is the cursor's. */
    method Consume(c: MusicChunk)
      requires Valid() && chunk == c
      modifies this
      ensures Valid() && pipe == old(pipe) && State() == Cursor(Some(c), true)
    {
      consumed := true;
    }

    method ClearTail(c: MusicChunk)
      requires Valid() && chunk == c && consumed
      modifies this
      ensures Valid() && pipe == old(pipe) && State() == Cursor(None, true)
    {
      chunk := null;
    }
  }
}
