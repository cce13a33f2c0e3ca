/**
 The cursor with which one output walks the shared music pipe
 (src/output/SharedPipeConsumer.cxx).  The pipe is a sequence of chunk
 addresses, oldest first; addresses are reused once a chunk has been freed,
 so a cursor is an address and not a position.
 */
module PipeCursor {
  import opened Prelude

  /** The two fields of SharedPipeConsumer: `chunk` and `consumed`. */
  datatype Cursor<+T> = Cursor(chunk: Option<T>, consumed: bool)

  function Peek<T>(pipe: seq<T>): Option<T> {
    if pipe == [] then None else Some(pipe[0])
  }

  /** The `next` pointer of the chunk at address `a`; null for the tail. */
  function NextOf<T(==)>(pipe: seq<T>, a: T): Option<T> {
    if |pipe| < 2 then None
    else if pipe[0] == a then Some(pipe[1])
    else NextOf(pipe[1..], a)
  }

  /** SharedPipeConsumer::Get: the new cursor; the chunk it returns is `Got`. */
  function Advance<T(==)>(c: Cursor<T>, pipe: seq<T>): Cursor<T> {
    if c.chunk.Some? then
      if !c.consumed then c
      else
        var next := NextOf(pipe, c.chunk.value);
        if next.None? then c else Cursor(next, false)
    else
      Cursor(Peek(pipe), false)
  }

  /** SharedPipeConsumer::Get: the returned chunk, null when there is nothing new. */
  function Got<T(==)>(c: Cursor<T>, pipe: seq<T>): Option<T> {
    if c.chunk.Some? then
      if !c.consumed then c.chunk else NextOf(pipe, c.chunk.value)
    else
      Peek(pipe)
  }

  /** SharedPipeConsumer::IsConsumed. */
  predicate IsConsumed<T(==)>(c: Cursor<T>, pipe: seq<T>, a: T) {
    c.chunk.Some? &&
    (a != c.chunk.value || (c.consumed && NextOf(pipe, a).None?))
  }

  /** In a pipe without repeated addresses, `next` leads to the following position. */
  lemma {:induction false} NextOfAt<T>(pipe: seq<T>, k: nat)
    requires Distinct(pipe) && k < |pipe|
    ensures NextOf(pipe, pipe[k]) == if k + 1 < |pipe| then Some(pipe[k + 1]) else None
  {
    if k > 0 {
      NextOfAt(pipe[1..], k - 1);
    }
  }

  /** What Get does, told by positions: an unconsumed chunk is handed out again, a
      consumed one gives way to its successor, and without a cursor the head is taken. */
  lemma GetByPosition<T>(c: Cursor<T>, pipe: seq<T>, k: nat)
    requires Distinct(pipe)
    requires c.chunk.Some? ==> k < |pipe| && pipe[k] == c.chunk.value
    ensures c.chunk.Some? && !c.consumed ==> Got(c, pipe) == Some(pipe[k]) && Advance(c, pipe) == c
    ensures c.chunk.Some? && c.consumed && k + 1 < |pipe|
            ==> Got(c, pipe) == Some(pipe[k + 1]) && Advance(c, pipe) == Cursor(Some(pipe[k + 1]), false)
    ensures c.chunk.Some? && c.consumed && k + 1 == |pipe|
            ==> Got(c, pipe) == None && Advance(c, pipe) == c
    ensures c.chunk.None? && pipe != [] ==> Got(c, pipe) == Some(pipe[0]) && Advance(c, pipe).chunk == Some(pipe[0])
    ensures c.chunk.None? && pipe == [] ==> Got(c, pipe) == None && Advance(c, pipe).chunk == None
  {
    if c.chunk.Some? {
      NextOfAt(pipe, k);
    }
  }

  /** The head counts as consumed exactly when the cursor has moved past it, or sits on
      it, has finished it, and nothing follows. */
  lemma ConsumedByPosition<T>(c: Cursor<T>, pipe: seq<T>, k: nat)
    requires Distinct(pipe) && k < |pipe|
    requires c.chunk == Some(pipe[k])
    ensures IsConsumed(c, pipe, pipe[0]) <==> k > 0 || (c.consumed && |pipe| == 1)
  {
    NextOfAt(pipe, 0);
  }
}
