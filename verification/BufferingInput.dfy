/**
 The input stream that reads a whole file into a buffer in the background
 (src/input/BufferingInputStream.cxx).

 Both threads hold the mutex, except while they wait and while the inner stream seeks or
 reads; only the fill thread changes the buffer.  So each method here is what one thread
 does while it holds the mutex, and the two threads may call them in any order.
 */
module BufferingInput {
  import opened Prelude
  import opened SparseBuffer

  type Byte = bv8

  const MAX_READ: nat := 64 * 1024

  /** One attempt of BufferingInputStream::Read. */
  datatype ReadResult = Bytes(bytes: seq<Byte>) | ReadFailed | MustWait

  /** What the inner stream does during one round of the fill thread: whether it has data,
      how much, and whether it throws. */
  datatype Input = Input(available: bool, offered: nat, fails: bool)

  /** One round of the fill thread. */
  datatype Round = Finished | Threw | Sought | Known | ReadSome(n: nat) | Waiting

  /** Before a round: what the inner stream does, what a client wants, and whether to stop. */
  datatype Turn = Turn(input: Input, want: Option<nat>, stop: bool)

  /** There always is data, no error and no stop. */
  predicate Undisturbed(rounds: seq<Turn>) {
    forall k :: 0 <= k < |rounds| ==> rounds[k].input.available && !rounds[k].input.fails && !rounds[k].stop
  }

  function Wants(rounds: seq<Turn>): nat {
    if rounds == [] then 0
    else Wants(rounds[..|rounds| - 1]) + (if rounds[|rounds| - 1].want.Some? then 1 else 0)
  }

  /** How many of the first n bytes are not defined. */
  ghost function Holes(chunks: seq<Interval>, n: nat): nat {
    if n == 0 then 0 else Holes(chunks, n - 1) + (if In(chunks, n - 1) then 0 else 1)
  }

  /** How many of the first n offsets are in a range. */
  function Overlap(start: nat, end: nat, n: nat): nat {
    if n <= start then 0 else if n <= end then n - start else if start <= end then end - start else 0
  }

  /** Defining a range that was a hole fills exactly that many. */
  lemma {:induction false} FillingHoles(before: seq<Interval>, after: seq<Interval>, start: nat, end: nat, n: nat)
    requires start <= end && forall o: nat :: In(after, o) <==> In(before, o) || start <= o < end
    requires forall o :: start <= o < end ==> !In(before, o)
    ensures Holes(after, n) == Holes(before, n) - Overlap(start, end, n)
  {
    if n > 0 {
      FillingHoles(before, after, start, end, n - 1);
    }
  }

  lemma {:induction false} NoHoles(chunks: seq<Interval>, n: nat)
    ensures Holes(chunks, n) == 0 <==> forall o :: 0 <= o < n ==> In(chunks, o)
  {
    if n > 0 {
      NoHoles(chunks, n - 1);
    }
  }

  class BufferingInputStream {
    /** The file, which does not change. */
    const content: seq<Byte>
    const defined: SparseMap
    const buffer: array<Byte>
    /** The read position of the inner stream. */
    var inputOffset: nat
    /** The offset that a client is waiting for. */
    var wantOffset: Option<nat>
    var error: bool

    ghost predicate Valid()
      reads this, defined, buffer
    {
      && defined.Valid() && defined.size == buffer.Length == |content| && inputOffset <= |content|
      && (wantOffset.Some? ==> wantOffset.value < |content|)
      && forall o :: 0 <= o < |content| && In(defined.chunks, o) ==> buffer[o] == content[o]
    }

    ghost predicate Complete()
      requires Valid()
      reads this, defined, buffer
    {
      forall o :: 0 <= o < |content| ==> In(defined.chunks, o)
    }

    ghost predicate AtHole()
      reads this, defined
    {
      inputOffset < |content| && !In(defined.chunks, inputOffset)
    }

    /** How many rounds the fill thread can still spend, if it always has data and is left alone. */
    ghost function Potential(): nat
      reads this, defined
    {
      2 * Holes(defined.chunks, |content|) + (if AtHole() then 0 else 1) + (if wantOffset.Some? then 1 else 0)
    }

    constructor (content: seq<Byte>)
      requires content != []
      ensures Valid() && this.content == content && fresh(defined) && fresh(buffer)
      ensures forall o :: !In(defined.chunks, o)
    {
      this.content := content;
      defined := new SparseMap(|content|);
      buffer := new Byte[|content|];
      inputOffset, wantOffset, error := 0, None, false;
    }

    /** IsAvailable: if not, the fill thread is told to hurry. */
    method IsAvailable(offset: nat) returns (available: bool)
      requires Valid()
      modifies this`wantOffset
      ensures Valid() && available == (offset >= |content| || error || In(defined.chunks, offset))
      ensures !available ==> wantOffset == if old(wantOffset).Some? then old(wantOffset) else Some(offset)
    {
      if offset >= |content| || error {
        return true;
      }
      var hole, chunk := defined.Check(offset);
      if hole == 0 && chunk > 0 {
        return true;
      }
      if wantOffset.None? {
        wantOffset := Some(offset);
      }
      return false;
    }

    /** Read, up to the point where it waits: bytes of the file, or the end of it. */
    method Read(offset: nat, size: nat) returns (r: ReadResult)
      requires Valid()
      modifies this`wantOffset
      ensures Valid() && (r.Bytes? <==> offset >= |content| || In(defined.chunks, offset))
      ensures r.Bytes? && offset >= |content| ==> r.bytes == []
      ensures r.Bytes? && offset < |content| ==>
                |r.bytes| <= size && offset + |r.bytes| <= |content| && (size > 0 ==> |r.bytes| > 0)
      ensures r.Bytes? ==> forall i :: 0 <= i < |r.bytes| ==> r.bytes[i] == content[offset + i]
      ensures r.ReadFailed? ==> error
      ensures r.MustWait? ==> !error && wantOffset == if old(wantOffset).Some? then old(wantOffset) else Some(offset)
    {
      if offset >= |content| {
        return Bytes([]);
      }
      var hole, chunk := defined.Check(offset);
      if hole == 0 && chunk > 0 {
        var nbytes := if size < chunk then size else chunk;
        return Bytes(buffer[offset..offset + nbytes]);
      }
      if error {
        return ReadFailed;
      }
      if wantOffset.None? {
        wantOffset := Some(offset);
      }
      return MustWait;
    }

    /** FindFirstHole: None stands for INVALID_OFFSET. */
    method FindFirstHole() returns (r: Option<nat>)
      requires Valid() && content != []
      ensures r.None? <==> Complete()
      ensures r.Some? ==> r.value < |content| && !In(defined.chunks, r.value)
      ensures r.Some? ==> forall o :: 0 <= o < r.value ==> In(defined.chunks, o)
    {
      var hole, chunk := defined.Check(0);
      if hole > 0 {
        assert !In(defined.chunks, 0);
        return Some(0);
      }
      if chunk < |content| {
        return Some(chunk);
      }
      return None;
    }

    /** The inner stream seeks to the first hole. */
    method SeekFirstHole(fails: bool) returns (round: Round)
      requires Valid() && content != []
      modifies this`inputOffset
      ensures Valid() && (round == Finished || round == Sought || round == Threw)
      ensures round == Finished <==> Complete()
      ensures round == Finished || round == Threw ==> inputOffset == old(inputOffset)
      ensures round == Threw ==> fails
      ensures round == Sought ==> inputOffset < |content| && !In(defined.chunks, inputOffset)
    {
      var hole := FindFirstHole();
      if hole.None? {
        return Finished;
      }
      if fails {
        return Threw;
      }
      inputOffset := hole.value;
      round := Sought;
    }

    /** The inner stream reads into the buffer, and the data is committed. */
    method ReadInto(w: nat, offered: nat) returns (nbytes: nat)
      requires Valid() && 0 < w && inputOffset + w <= |content|
      requires forall o :: inputOffset <= o < inputOffset + w ==> !In(defined.chunks, o)
      modifies this`inputOffset, defined, buffer
      ensures Valid() && 0 < nbytes <= w && nbytes <= MAX_READ && inputOffset == old(inputOffset) + nbytes
      ensures Holes(defined.chunks, |content|) == old(Holes(defined.chunks, |content|)) - nbytes
      ensures forall o: nat :: In(defined.chunks, o) <==>
              old(In(defined.chunks, o)) || old(inputOffset) <= o < inputOffset
    {
      var limit := if w > MAX_READ then MAX_READ else w;
      nbytes := if 1 <= offered <= limit then offered else limit;
      ghost var before := defined.chunks;
      forall i | inputOffset <= i < inputOffset + nbytes {
        buffer[i] := content[i];
      }
      defined.Commit(inputOffset, inputOffset + nbytes);
      FillingHoles(before, defined.chunks, inputOffset, inputOffset + nbytes, |content|);
      inputOffset := inputOffset + nbytes;
    }

    /** One round of RunThreadLocked(): no byte becomes undefined, reading fills holes, and a
        seek goes to a hole. */
    method FillRound(input: Input) returns (round: Round)
      requires Valid() && content != []
      modifies this`inputOffset, this`wantOffset, defined, buffer
      ensures Valid() && (round == Finished ==> Complete()) && (round == Threw ==> input.fails)
      ensures Complete() <==> Holes(defined.chunks, |content|) == 0
      ensures forall o: nat :: old(In(defined.chunks, o)) ==> In(defined.chunks, o)
      ensures Holes(defined.chunks, |content|) ==
              old(Holes(defined.chunks, |content|)) - (if round.ReadSome? then round.n else 0)
      ensures round.ReadSome? ==> round.n > 0
      ensures round == Sought ==> wantOffset.None? && AtHole()
      ensures old(wantOffset.None? && AtHole()) && input.available && !input.fails ==> round.ReadSome?
      ensures input.available && !input.fails && round != Finished ==> Potential() < old(Potential())
    {
      if wantOffset.Some? {
        var seekOffset := wantOffset.value;
        wantOffset := None;
        round := SeekWanted(seekOffset, input.fails);
      } else if inputOffset == |content| {
        round := SeekFirstHole(input.fails);
      } else if input.available {
        var w, chunk := defined.Check(inputOffset);
        if w == 0 {
          assert chunk > 0 && In(defined.chunks, inputOffset);
          round := SeekFirstHole(input.fails);
        } else if input.fails {
          round := Threw;
        } else {
          var n := ReadInto(w, input.offered);
          round := ReadSome(n);
        }
      } else {
        round := Waiting;
      }
      NoHoles(defined.chunks, |content|);
    }

    /** The offset that a client waits for is sought, unless it is defined by now. */
    method SeekWanted(offset: nat, fails: bool) returns (round: Round)
      requires Valid() && wantOffset.None? && offset < |content|
      modifies this`inputOffset
      ensures Valid() && (round == Known || round == Sought || round == Threw)
      ensures round == Known <==> In(defined.chunks, offset)
      ensures round == Threw ==> fails
      ensures inputOffset == if round == Sought then offset else old(inputOffset)
    {
      var hole, chunk := defined.Check(offset);
      if hole == 0 && chunk > 0 {
        return Known;
      }
      assert hole > 0 ==> !In(defined.chunks, offset);
      if fails {
        return Threw;
      }
      inputOffset := offset;
      round := Sought;
    }

    /** RunThread(): what clients want, what the inner stream does and when to stop, round by
        round.  Without a stop or an error, the thread ends only when it has all of the file;
        the bytes it has read are the bytes that were undefined and are not any more.  If there
        always is data, it has all of the file after two rounds for each byte that was undefined,
        two more, and one for each time a client wanted something. */
    method Run(rounds: seq<Turn>) returns (finished: bool, stopped: bool, filled: nat)
      requires Valid() && content != [] && !error
      requires forall k :: 0 <= k < |rounds| && rounds[k].want.Some? ==> rounds[k].want.value < |content|
      modifies this, defined, buffer
      ensures Valid() && (finished && !stopped && !error ==> Complete() && Holes(defined.chunks, |content|) == 0)
      ensures Holes(defined.chunks, |content|) == old(Holes(defined.chunks, |content|)) - filled
      ensures stopped ==> exists k :: 0 <= k < |rounds| && rounds[k].stop
      ensures error ==> exists k :: 0 <= k < |rounds| && rounds[k].input.fails
      ensures !finished ==> !stopped && !error
      ensures Undisturbed(rounds) && |rounds| >= old(Potential()) + Wants(rounds) + 1 ==> finished && !stopped && !error
    {
      filled := 0;
      for k := 0 to |rounds|
        invariant Valid() && !error
        invariant Undisturbed(rounds) ==> k + Potential() <= old(Potential()) + Wants(rounds[..k])
        invariant Holes(defined.chunks, |content|) == old(Holes(defined.chunks, |content|)) - filled
      {
        var Turn(input, want, stop) := rounds[k];
        assert rounds[..k + 1][..k] == rounds[..k];
        if stop {
          return true, true, filled;
        }
        if want.Some? && wantOffset.None? {
          wantOffset := want;
        }
        var round := FillRound(input);
        if round.ReadSome? {
          filled := filled + round.n;
        }
        if round == Threw {
          error := true;
          return true, false, filled;
        }
        if round == Finished {
          return true, false, filled;
        }
      }
      assert rounds[..|rounds|] == rounds;
      return false, false, filled;
    }
  }
}
