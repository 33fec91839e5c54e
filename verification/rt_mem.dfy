/** Memory helpers of the hot loop, over one byte-addressed memory. Word accesses demand a
    four-byte boundary, so that a proof of a helper is a proof of its alignment. */
module RtMem {
  import opened Words

  const WORD: nat := 4

  method ReadWord(memory: array<Byte>, at: nat) returns (bytes: seq<Byte>)
    requires at % WORD == 0 && at + WORD <= memory.Length
    ensures bytes == memory[at..at + WORD]
  {
    bytes := memory[at..at + WORD];
  }

  method WriteWord(memory: array<Byte>, at: nat, bytes: seq<Byte>)
    requires at % WORD == 0 && at + WORD <= memory.Length && |bytes| == WORD
    modifies memory
    ensures memory[..] == Replaced(old(memory[..]), at, bytes)
  {
    memory[at], memory[at + 1], memory[at + 2], memory[at + 3] := bytes[0], bytes[1], bytes[2], bytes[3];
  }

  method WriteByte(memory: array<Byte>, at: nat, byte: Byte)
    requires at < memory.Length
    modifies memory
    ensures memory[..] == Replaced(old(memory[..]), at, [byte])
  {
    memory[at] := byte;
  }

  /** The two regions have no byte in common. */
  predicate Disjoint(destination: nat, source: nat, length: nat) {
    length == 0 || destination + length <= source || source + length <= destination
  }

  /** Memory after the first `done` bytes of a copy. */
  function Copied(memory: seq<Byte>, destination: nat, source: nat, done: nat): seq<Byte>
    requires destination + done <= |memory| && source + done <= |memory|
  {
    Replaced(memory, destination, memory[source..source + done])
  }

  lemma NothingCopied(memory: seq<Byte>, destination: nat, source: nat)
    requires destination <= |memory| && source <= |memory|
    ensures Copied(memory, destination, source, 0) == memory
  {}

  /** Bytes outside the replaced ones stay. */
  lemma Elsewhere(memory: seq<Byte>, at: nat, bytes: seq<Byte>, lo: nat, hi: nat)
    requires at + |bytes| <= |memory| && lo <= hi <= |memory| && (hi <= at || at + |bytes| <= lo)
    ensures Replaced(memory, at, bytes)[lo..hi] == memory[lo..hi]
  {}

  lemma ReplacedTwice(memory: seq<Byte>, at: nat, a: seq<Byte>, b: seq<Byte>)
    requires at + |a| + |b| <= |memory|
    ensures Replaced(Replaced(memory, at, a), at + |a|, b) == Replaced(memory, at, a + b)
  {}

  /** Extending a copy by `n` bytes that are still where they were. */
  lemma CopiedFurther(memory: seq<Byte>, destination: nat, source: nat, done: nat, n: nat)
    requires destination + done + n <= |memory| && source + done + n <= |memory|
    requires Disjoint(destination, source, done + n)
    ensures
      var now := Copied(memory, destination, source, done);
      && now[source + done..source + done + n] == memory[source + done..source + done + n]
      && Replaced(now, destination + done, memory[source + done..source + done + n])
         == Copied(memory, destination, source, done + n)
  {
    hide Replaced;
    var a, b := memory[source..source + done], memory[source + done..source + done + n];
    if done + n > 0 { Elsewhere(memory, destination, a, source + done, source + done + n); }
    ReplacedTwice(memory, destination, a, b);
    assert a + b == memory[source..source + (done + n)];
  }

  lemma SingleByte(memory: seq<Byte>, at: nat)
    requires at < |memory|
    ensures memory[at..at + 1] == [memory[at]]
  {}

  method CopyByte(memory: array<Byte>, ghost was: seq<Byte>, destination: nat, source: nat, done: nat)
    requires |was| == memory.Length && destination + done < memory.Length && source + done < memory.Length
    requires Disjoint(destination, source, done + 1)
    requires memory[..] == Copied(was, destination, source, done)
    modifies memory
    ensures memory[..] == Copied(was, destination, source, done + 1)
  {
    hide Copied, Replaced;
    CopiedFurther(was, destination, source, done, 1);
    ghost var now := memory[..];
    var byte := memory[source + done];
    SingleByte(now, source + done);
    SingleByte(was, source + done);
    WriteByte(memory, destination + done, byte);
  }

  method CopyWord(memory: array<Byte>, ghost was: seq<Byte>, destination: nat, source: nat, done: nat)
    requires |was| == memory.Length
    requires destination + done + WORD <= memory.Length && source + done + WORD <= memory.Length
    requires (destination + done) % WORD == 0 && (source + done) % WORD == 0
    requires Disjoint(destination, source, done + WORD)
    requires memory[..] == Copied(was, destination, source, done)
    modifies memory
    ensures memory[..] == Copied(was, destination, source, done + WORD)
  {
    CopiedFurther(was, destination, source, done, WORD);
    var value := ReadWord(memory, source + done);
    assert value == memory[..][source + done..source + done + WORD];
    WriteWord(memory, destination + done, value);
  }

  /** Copy between arbitrarily aligned, disjoint regions: a byte prefix to a common boundary
      if there is one, then words, then the tail. */
  method MemCpy(memory: array<Byte>, destination: nat, source: nat, length: nat)
    requires destination + length <= memory.Length && source + length <= memory.Length
    requires Disjoint(destination, source, length)
    modifies memory
    ensures memory[..] == Copied(old(memory[..]), destination, source, length)
  {
    ghost var was := memory[..];
    NothingCopied(was, destination, source);
    var done := CopyPrefix(memory, was, destination, source, length);
    CopyAligned(memory, was, destination, source, length, done);
  }

  predicate Aligned(address: nat) { address % WORD == 0 }

  predicate EquallyAligned(a: nat, b: nat) { a % WORD == b % WORD }

  lemma StillEquallyAligned(a: nat, b: nat)
    requires EquallyAligned(a, b)
    ensures EquallyAligned(a + 1, b + 1)
    ensures Aligned(a) <==> Aligned(b)
  {}

  /** Single bytes until both pointers are on a word boundary, or nothing is left. */
  method CopyPrefix(memory: array<Byte>, ghost was: seq<Byte>, destination: nat, source: nat, length: nat)
    returns (done: nat)
    requires |was| == memory.Length && Disjoint(destination, source, length)
    requires destination + length <= memory.Length && source + length <= memory.Length
    requires memory[..] == Copied(was, destination, source, 0)
    modifies memory
    ensures done <= length && memory[..] == Copied(was, destination, source, done)
    ensures done < length ==> Aligned(destination + done) && Aligned(source + done)
  {
    hide Copied, Aligned, EquallyAligned;
    done := 0;
    while done < length && !EquallyAligned(destination + done, source + done)
      invariant done <= length && memory[..] == Copied(was, destination, source, done)
    {
      CopyByte(memory, was, destination, source, done);
      done := done + 1;
    }
    while done < length && !Aligned(destination + done)
      invariant done <= length && memory[..] == Copied(was, destination, source, done)
      invariant done < length ==> EquallyAligned(destination + done, source + done)
    {
      CopyByte(memory, was, destination, source, done);
      StillEquallyAligned(destination + done, source + done);
      done := done + 1;
    }
    if done < length { StillEquallyAligned(destination + done, source + done); }
  }

  /** Whole words while four bytes remain, then single bytes. */
  method CopyAligned(memory: array<Byte>, ghost was: seq<Byte>, destination: nat, source: nat, length: nat, start: nat)
    requires |was| == memory.Length && start <= length
    requires destination + length <= memory.Length && source + length <= memory.Length
    requires Disjoint(destination, source, length)
    requires start < length ==> (destination + start) % WORD == 0 && (source + start) % WORD == 0
    requires memory[..] == Copied(was, destination, source, start)
    modifies memory
    ensures memory[..] == Copied(was, destination, source, length)
  {
    hide Copied;
    var done := start;
    while length - done >= WORD
      invariant done <= length && memory[..] == Copied(was, destination, source, done)
      invariant done < length ==> (destination + done) % WORD == 0 && (source + done) % WORD == 0
    {
      CopyWord(memory, was, destination, source, done);
      done := done + WORD;
    }
    while done < length
      invariant done <= length && memory[..] == Copied(was, destination, source, done)
    {
      CopyByte(memory, was, destination, source, done);
      done := done + 1;
    }
  }

  /** The aligned entry point. */
  method MemCpy4(memory: array<Byte>, destination: nat, source: nat, length: nat)
    requires destination % WORD == 0 && source % WORD == 0
    requires destination + length <= memory.Length && source + length <= memory.Length
    requires Disjoint(destination, source, length)
    modifies memory
    ensures memory[..] == Copied(old(memory[..]), destination, source, length)
  {
    NothingCopied(memory[..], destination, source);
    CopyAligned(memory, memory[..], destination, source, length, 0);
  }

  /** What a finished copy means: the destination holds what the source held, and every byte
      outside the destination, the source included, is as it was. */
  lemma CopyIsExact(memory: seq<Byte>, destination: nat, source: nat, length: nat, i: nat)
    requires destination + length <= |memory| && source + length <= |memory| && i < |memory|
    requires Disjoint(destination, source, length)
    ensures
      var after := Copied(memory, destination, source, length);
      && |after| == |memory|
      && after[i] == (if destination <= i < destination + length then memory[source + i - destination] else memory[i])
      && after[source..source + length] == memory[source..source + length]
  {}

  // ---------------------------------------------------------------------------
  // Clearing
  // ---------------------------------------------------------------------------

  function Zeros(n: nat): seq<Byte> { seq(n, _ => 0) }

  function Cleared(memory: seq<Byte>, destination: nat, done: nat): seq<Byte>
    requires destination + done <= |memory|
  {
    Replaced(memory, destination, Zeros(done))
  }

  lemma ClearedFurther(memory: seq<Byte>, destination: nat, done: nat, n: nat)
    requires destination + done + n <= |memory|
    ensures Replaced(Cleared(memory, destination, done), destination + done, Zeros(n)) == Cleared(memory, destination, done + n)
    ensures Cleared(memory, destination, 0) == memory
  {}

  method ClearByte(memory: array<Byte>, ghost was: seq<Byte>, destination: nat, done: nat)
    requires |was| == memory.Length && destination + done < memory.Length
    requires memory[..] == Cleared(was, destination, done)
    modifies memory
    ensures memory[..] == Cleared(was, destination, done + 1)
  {
    ClearedFurther(was, destination, done, 1);
    assert Zeros(1) == [0];
    hide Cleared, Replaced;
    WriteByte(memory, destination + done, 0);
  }

  method ClearWord(memory: array<Byte>, ghost was: seq<Byte>, destination: nat, done: nat)
    requires |was| == memory.Length && destination + done + WORD <= memory.Length
    requires (destination + done) % WORD == 0
    requires memory[..] == Cleared(was, destination, done)
    modifies memory
    ensures memory[..] == Cleared(was, destination, done + WORD)
  {
    ClearedFurther(was, destination, done, WORD);
    WriteWord(memory, destination + done, Zeros(WORD));
  }

  /** Clear an arbitrarily aligned region. */
  method MemClr(memory: array<Byte>, destination: nat, length: nat)
    requires destination + length <= memory.Length
    modifies memory
    ensures memory[..] == Cleared(old(memory[..]), destination, length)
  {
    hide Cleared;
    ghost var was := memory[..];
    ClearedFurther(was, destination, 0, 0);
    var done := 0;
    while done < length && (destination + done) % WORD != 0
      invariant done <= length && memory[..] == Cleared(was, destination, done)
    {
      ClearByte(memory, was, destination, done);
      done := done + 1;
    }
    ClearAligned(memory, was, destination, length, done);
  }

  method ClearAligned(memory: array<Byte>, ghost was: seq<Byte>, destination: nat, length: nat, start: nat)
    requires |was| == memory.Length && start <= length && destination + length <= memory.Length
    requires start < length ==> (destination + start) % WORD == 0
    requires memory[..] == Cleared(was, destination, start)
    modifies memory
    ensures memory[..] == Cleared(was, destination, length)
  {
    hide Cleared;
    var done := start;
    while length - done >= WORD
      invariant done <= length && memory[..] == Cleared(was, destination, done)
      invariant done < length ==> (destination + done) % WORD == 0
    {
      ClearWord(memory, was, destination, done);
      done := done + WORD;
    }
    while done < length
      invariant done <= length && memory[..] == Cleared(was, destination, done)
    {
      ClearByte(memory, was, destination, done);
      done := done + 1;
    }
  }

  method MemClr4(memory: array<Byte>, destination: nat, length: nat)
    requires destination % WORD == 0 && destination + length <= memory.Length
    modifies memory
    ensures memory[..] == Cleared(old(memory[..]), destination, length)
  {
    ClearedFurther(memory[..], destination, 0, 0);
    ClearAligned(memory, memory[..], destination, length, 0);
  }

  lemma ClearIsExact(memory: seq<Byte>, destination: nat, length: nat, i: nat)
    requires destination + length <= |memory| && i < |memory|
    ensures
      var after := Cleared(memory, destination, length);
      && |after| == |memory|
      && after[i] == (if destination <= i < destination + length then 0 else memory[i])
  {}
}
