/**
 The input stream that keeps the beginning of a stream, so that it can be rewound
 (src/input/RewindInputStream.cxx).  The inner stream is its content and a read position;
 how much it returns at a time, and whether it fails, are parameters.
 */
module RewindInput {
  type Byte = bv8

  const BUFFER_SIZE: nat := 64 * 1024

  class RewindInputStream {
    const content: seq<Byte>
    /** input->GetOffset() */
    var inputOffset: nat
    /** What the caller takes for the read position. */
    var offset: nat
    var head: nat
    var tail: nat
    const buffer: array<Byte>

    predicate ReadingFromBuffer()
      reads this
    {
      tail > 0 && offset < inputOffset
    }

    /** The buffer holds the beginning of the stream, up to the position of the inner stream;
        without it, both positions are the same. */
    ghost predicate Valid()
      reads this, buffer
    {
      && buffer.Length == BUFFER_SIZE && offset <= inputOffset <= |content|
      && (tail == 0 ==> offset == inputOffset)
      && (tail > 0 ==> tail == inputOffset <= BUFFER_SIZE)
      && (ReadingFromBuffer() ==> head == offset)
      && forall i :: 0 <= i < tail && i < BUFFER_SIZE && i < |content| ==> buffer[i] == content[i]
    }

    constructor (content: seq<Byte>)
      ensures Valid() && this.content == content && offset == tail == 0 && fresh(buffer)
    {
      this.content := content;
      buffer := new Byte[BUFFER_SIZE];
      inputOffset, offset, head, tail := 0, 0, 0, 0;
    }

    /** The inner stream: some of the next bytes, none only at the end. */
    method ReadInput(size: nat, offered: nat) returns (bytes: seq<Byte>)
      requires inputOffset <= |content|
      modifies this`inputOffset
      ensures |bytes| <= size && inputOffset == old(inputOffset) + |bytes| <= |content|
      ensures bytes == content[old(inputOffset)..inputOffset]
      ensures bytes == [] ==> size == 0 || inputOffset == |content|
    {
      var left := |content| - inputOffset;
      var limit := if size < left then size else left;
      var n := if 1 <= offered <= limit then offered else limit;
      bytes := content[inputOffset..inputOffset + n];
      inputOffset := inputOffset + n;
    }

    /** Read: the bytes of the stream at `offset`, in whatever way they come.  After a failed
        seek it is called on a stream that is not valid. */
    method Read(size: nat, offered: nat) returns (bytes: seq<Byte>)
      requires Valid() || (tail == 0 && buffer.Length == BUFFER_SIZE && offset <= inputOffset <= |content|)
      modifies this, buffer
      ensures |bytes| <= size && offset <= inputOffset <= |content|
      ensures old(Valid()) ==> Valid() && offset == old(offset) + |bytes| && bytes == content[old(offset)..offset]
      ensures bytes == [] ==> size == 0 || offset == |content|
      ensures old(tail == 0) ==> offset == old(inputOffset) + |bytes| && bytes == content[old(inputOffset)..offset]
      ensures old(tail == offset == 0) && offset <= BUFFER_SIZE ==> tail == |bytes|
    {
      if ReadingFromBuffer() {
        var n := if size > tail - head then tail - head else size;
        bytes := buffer[head..head + n];
        head := head + n;
        offset := offset + n;
      } else {
        bytes := ReadInput(size, offered);
        Remember(bytes);
        offset := inputOffset;
      }
    }

    /** Read, after the inner stream was read: append to the buffer, or give it up. */
    method Remember(bytes: seq<Byte>)
      requires buffer.Length == BUFFER_SIZE && offset + |bytes| <= inputOffset <= |content|
      modifies this`tail, buffer
      ensures tail == if inputOffset > BUFFER_SIZE then 0
                      else if old(tail) == offset then old(tail) + |bytes| else old(tail)
      ensures forall i :: 0 <= i < BUFFER_SIZE && i < old(tail) ==> buffer[i] == old(buffer[i])
      ensures tail > old(tail) ==> forall i :: old(tail) <= i < tail ==> buffer[i] == bytes[i - old(tail)]
    {
      if inputOffset > BUFFER_SIZE {
        tail := 0;
      } else if tail == offset {
        forall i | tail <= i < tail + |bytes| {
          buffer[i] := bytes[i - tail];
        }
        tail := tail + |bytes|;
      }
    }

    /** Seek: within the buffer, or by the inner stream, which may fail.  If it does, the
        stream stays intact exactly when it was not reading from the buffer. */
    method Seek(newOffset: nat, fails: bool) returns (ok: bool)
      requires Valid() && newOffset <= |content|
      modifies this`inputOffset, this`offset, this`head, this`tail
      ensures ok ==> Valid() && offset == newOffset
      ensures !ok ==> fails && offset == old(offset) && (Valid() <==> !old(ReadingFromBuffer()))
      ensures ok <==> !fails || old(tail > 0 && newOffset <= tail)
      ensures !ok || old(tail > 0 && newOffset <= tail) ==> inputOffset == old(inputOffset)
      ensures tail == if old(tail > 0 && newOffset <= tail) then old(tail) else 0
    {
      if tail > 0 && newOffset <= tail {
        head := newOffset;
        offset := newOffset;
        return true;
      }
      tail := 0;
      if fails {
        return false;
      }
      inputOffset := newOffset;
      offset := inputOffset;
      return true;
    }

    predicate IsEof()
      reads this
    {
      !ReadingFromBuffer() && inputOffset == |content|
    }

    /** IsEOF says yes exactly at the end, also while the buffer is being read again. */
    lemma EofIsEnd()
      requires Valid()
      ensures IsEof() <==> offset == |content|
    {
    }
  }

  /** A stream that is rewound, and then fails to seek forward, returns the wrong bytes. */
  method FailedSeekMisreads(first: Byte, second: Byte) returns (position: nat, bytes: seq<Byte>)
    ensures position == 0 && bytes == [second]
  {
    var s := new RewindInputStream([first, second]);
    var b := s.Read(1, 1);
    var _ := s.Seek(0, false);
    assert s.ReadingFromBuffer();
    var _ := s.Seek(2, true);
    position := s.offset;
    bytes := s.Read(1, 1);
    assert |bytes| == 1;
  }

  datatype Op = OpRead(size: nat, offered: nat) | OpSeek(offset: nat)

  /** Direct access to the content: from position p to p'. */
  predicate Answers(content: seq<Byte>, op: Op, p: nat, bytes: seq<Byte>, p': nat) {
    match op
    case OpSeek(o) => bytes == [] && p' == o
    case OpRead(size, _) =>
      p <= p' <= |content| && bytes == content[p..p'] && |bytes| <= size &&
        (bytes == [] ==> size == 0 || p == |content|)
  }

  /** Over any reads and successful seeks, the stream is like direct access. */
  method Drive(content: seq<Byte>, ops: seq<Op>) returns (positions: seq<nat>, results: seq<seq<Byte>>)
    requires forall k :: 0 <= k < |ops| && ops[k].OpSeek? ==> ops[k].offset <= |content|
    ensures |results| == |ops| == |positions| - 1 && positions[0] == 0
    ensures forall k :: 0 <= k < |ops| ==> Answers(content, ops[k], positions[k], results[k], positions[k + 1])
  {
    var s := new RewindInputStream(content);
    positions, results := [0], [];
    for k := 0 to |ops|
      invariant fresh(s) && fresh(s.buffer) && s.Valid() && s.content == content
      invariant |results| == k == |positions| - 1 && positions[0] == 0 && positions[k] == s.offset
      invariant forall j :: 0 <= j < k ==> Answers(content, ops[j], positions[j], results[j], positions[j + 1])
    {
      var bytes := [];
      if ops[k].OpSeek? {
        var _ := s.Seek(ops[k].offset, false);
      } else {
        bytes := s.Read(ops[k].size, ops[k].offered);
      }
      positions, results := positions + [s.offset], results + [bytes];
    }
  }
}
