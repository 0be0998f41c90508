/** The ring buffer that keeps the end of the target's standard error. */
module ByteTail {
  import opened Common
  import opened NdjsonDecoding

  datatype Captured = Captured(tail: seq<Byte>, totalBytes: nat, truncated: bool)

  function Min(a: nat, b: nat): nat {
    if a < b then a else b
  }

  /** The bytes a ring buffer holds, oldest first. */
  function View(buffer: seq<Byte>, length: nat, writeOffset: nat): seq<Byte>
    requires length <= |buffer| && writeOffset <= |buffer|
  {
    if length < |buffer| then buffer[..length] else buffer[writeOffset..] + buffer[..writeOffset]
  }

  /** The ring after a chunk shorter than it was written at the offset, wrapping around. */
  function Written(buffer: seq<Byte>, writeOffset: nat, chunk: seq<Byte>): (r: seq<Byte>)
    requires writeOffset <= |buffer| && |chunk| < |buffer|
    ensures |r| == |buffer|
  {
    var first := Min(|chunk|, |buffer| - writeOffset);
    if first < |chunk| then chunk[first..] + buffer[|chunk| - first..writeOffset] + chunk[..first]
    else buffer[..writeOffset] + chunk + buffer[writeOffset + |chunk|..]
  }

  /** Oldest byte first, a ring that was written without wrapping. */
  lemma WriteWithoutWrap(buffer: seq<Byte>, length: nat, writeOffset: nat, chunk: seq<Byte>)
    requires length <= |buffer| && |chunk| < |buffer| && writeOffset + |chunk| < |buffer|
    requires length < |buffer| ==> writeOffset == length
    ensures View(Written(buffer, writeOffset, chunk), Min(|buffer|, length + |chunk|), writeOffset + |chunk|)
            == Last(View(buffer, length, writeOffset) + chunk, |buffer|)
  {
    var w := writeOffset + |chunk|;
    var after := Written(buffer, writeOffset, chunk);
    assert after[..w] == buffer[..writeOffset] + chunk;
    assert after[w..] == buffer[w..];
    if length == |buffer| {
      assert buffer[writeOffset..][|chunk|..] == buffer[w..];
      assert View(buffer, length, writeOffset) + chunk
             == buffer[writeOffset..w] + (buffer[w..] + (buffer[..writeOffset] + chunk));
    }
  }

  /** The same for a write that reaches the end of the buffer. */
  lemma WriteWithWrap(buffer: seq<Byte>, length: nat, writeOffset: nat, chunk: seq<Byte>)
    requires length <= |buffer| && |chunk| < |buffer| && writeOffset < |buffer| <= writeOffset + |chunk|
    requires length < |buffer| ==> writeOffset == length
    ensures View(Written(buffer, writeOffset, chunk), |buffer|, writeOffset + |chunk| - |buffer|)
            == Last(View(buffer, length, writeOffset) + chunk, |buffer|)
  {
    var w, first := writeOffset + |chunk| - |buffer|, |buffer| - writeOffset;
    var after := Written(buffer, writeOffset, chunk);
    assert after[..w] == chunk[first..];
    assert after[w..] == buffer[w..writeOffset] + chunk[..first];
    assert after[w..] + after[..w] == buffer[w..writeOffset] + chunk;
    assert buffer[..writeOffset] == buffer[..w] + buffer[w..writeOffset];
    if length == |buffer| {
      assert View(buffer, length, writeOffset) + chunk
             == (buffer[writeOffset..] + buffer[..w]) + (buffer[w..writeOffset] + chunk);
    } else {
      assert View(buffer, length, writeOffset) + chunk == buffer[..w] + (buffer[w..writeOffset] + chunk);
    }
  }

  /** The write offset after k more bytes, k smaller than the ring. */
  function Advance(writeOffset: nat, k: nat, size: nat): (r: int)
  {
    if writeOffset + k < size then writeOffset + k else writeOffset + k - size
  }

  lemma AdvanceIsModulo(writeOffset: nat, k: nat, size: nat)
    requires writeOffset < size && k < size
    ensures (writeOffset + k) % size == Advance(writeOffset, k, size)
  {
    var total := writeOffset + k;
    var quotient, remainder := total / size, total % size;
    assert total == quotient * size + remainder;
    assert (quotient - 1) * size < size;
    assert quotient == 0 || quotient == 1;
  }

  /** Writing a short chunk into the ring drops exactly the oldest bytes that no longer fit. */
  lemma WriteKeepsEnd(buffer: seq<Byte>, length: nat, writeOffset: nat, chunk: seq<Byte>)
    requires length <= |buffer| && |chunk| < |buffer| && writeOffset < |buffer|
    requires length < |buffer| ==> writeOffset == length
    ensures View(Written(buffer, writeOffset, chunk), Min(|buffer|, length + |chunk|),
                 Advance(writeOffset, |chunk|, |buffer|))
            == Last(View(buffer, length, writeOffset) + chunk, |buffer|)
  {
    hide View, Written, Last;
    if writeOffset + |chunk| < |buffer| {
      WriteWithoutWrap(buffer, length, writeOffset, chunk);
    } else {
      WriteWithWrap(buffer, length, writeOffset, chunk);
    }
  }

  /** The two copies make up the wrapped write. */
  lemma TwoPieces(buffer: seq<Byte>, writeOffset: nat, chunk: seq<Byte>, once: seq<Byte>)
    requires writeOffset <= |buffer| && |chunk| < |buffer|
    requires var first := Min(|chunk|, |buffer| - writeOffset);
             once == buffer[..writeOffset] + chunk[..first] + buffer[writeOffset + first..]
    ensures var first := Min(|chunk|, |buffer| - writeOffset);
            Written(buffer, writeOffset, chunk)
            == if first == |chunk| then once else [] + chunk[first..] + once[|chunk| - first..]
  {
    var first := Min(|chunk|, |buffer| - writeOffset);
    if first == |chunk| {
      assert chunk[..first] == chunk;
    } else {
      assert once[|chunk| - first..] == buffer[|chunk| - first..writeOffset] + chunk[..first];
    }
  }

  lemma LastOfLast<T>(stream: seq<T>, chunk: seq<T>, n: nat)
    ensures Last(Last(stream, n) + chunk, n) == Last(stream + chunk, n)
  {
  }

  class BoundedByteTail {
    const buffer: array<Byte>
    const maxBytes: nat
    var length: nat
    var totalBytes: nat
    var writeOffset: nat
    /** Everything appended so far. */
    ghost var stream: seq<Byte>

    ghost predicate Valid()
      reads this, buffer
    {
      && buffer.Length == maxBytes
      && length == Min(maxBytes, |stream|)
      && totalBytes == Min(MAX_SAFE_INTEGER, |stream|)
      && (length < maxBytes ==> writeOffset == length)
      && (writeOffset < maxBytes || maxBytes == 0 == writeOffset)
      && View(buffer[..], length, writeOffset) == Last(stream, maxBytes)
    }

    constructor (maxBytes: nat)
      ensures Valid() && fresh(buffer)
      ensures this.maxBytes == maxBytes && stream == []
    {
      this.maxBytes := maxBytes;
      buffer := new Byte[maxBytes];
      length, totalBytes, writeOffset, stream := 0, 0, 0, [];
    }

    method Append(chunk: seq<Byte>)
      requires Valid()
      modifies this, buffer
      ensures Valid() && stream == old(stream) + chunk
    {
      totalBytes := Min(MAX_SAFE_INTEGER, totalBytes + |chunk|);
      if |chunk| >= maxBytes {
        AppendLong(chunk);
      } else {
        AppendShort(chunk);
      }
      stream := stream + chunk;
    }

    /** Of a chunk that fills the buffer only its end is kept. */
    method AppendLong(chunk: seq<Byte>)
      requires |chunk| >= maxBytes == buffer.Length
      modifies this`writeOffset, this`length, buffer
      ensures length == maxBytes && writeOffset == 0
      ensures View(buffer[..], length, writeOffset) == Last(stream + chunk, maxBytes)
    {
      CopyBytes(chunk[|chunk| - maxBytes..], buffer, 0);
      assert buffer[..] == Last(stream + chunk, maxBytes);
      length := maxBytes;
      writeOffset := 0;
    }

    method AppendShort(chunk: seq<Byte>)
      requires |chunk| < maxBytes == buffer.Length && writeOffset < maxBytes && length <= maxBytes
      requires length < maxBytes ==> writeOffset == length
      requires View(buffer[..], length, writeOffset) == Last(stream, maxBytes)
      modifies this`writeOffset, this`length, buffer
      ensures length == Min(maxBytes, old(length) + |chunk|) && writeOffset < maxBytes
      ensures length < maxBytes ==> writeOffset == length
      ensures View(buffer[..], length, writeOffset) == Last(stream + chunk, maxBytes)
    {
      WriteKeepsEnd(buffer[..], length, writeOffset, chunk);
      LastOfLast(stream, chunk, maxBytes);
      AdvanceIsModulo(writeOffset, |chunk|, maxBytes);
      Write(chunk);
      writeOffset := (writeOffset + |chunk|) % maxBytes;
      length := Min(maxBytes, length + |chunk|);
    }

    /** Copies a short chunk into the ring in at most two pieces. */
    method Write(chunk: seq<Byte>)
      requires |chunk| < maxBytes == buffer.Length && writeOffset <= maxBytes
      modifies buffer
      ensures buffer[..] == Written(old(buffer[..]), writeOffset, chunk)
    {
      var firstCopyBytes := Min(|chunk|, maxBytes - writeOffset);
      ghost var before := buffer[..];
      assert before[..writeOffset] == buffer[..writeOffset];
      assert before[writeOffset + firstCopyBytes..] == buffer[writeOffset + firstCopyBytes..];
      CopyBytes(chunk[..firstCopyBytes], buffer, writeOffset);
      TwoPieces(before, writeOffset, chunk, buffer[..]);
      if firstCopyBytes < |chunk| {
        assert buffer[..0] == [] && buffer[|chunk| - firstCopyBytes..] == buffer[..][|chunk| - firstCopyBytes..];
        CopyBytes(chunk[firstCopyBytes..], buffer, 0);
      }
    }

    /** The last min(maxBytes, total) bytes of all that was appended, and whether bytes were lost. */
    method Snapshot() returns (captured: Captured)
      requires Valid()
      ensures captured.tail == Last(stream, maxBytes)
      ensures captured.totalBytes == Min(MAX_SAFE_INTEGER, |stream|)
      ensures maxBytes < MAX_SAFE_INTEGER ==> (captured.truncated <==> |stream| > |captured.tail|)
    {
      captured := Captured(View(buffer[..], length, writeOffset), totalBytes, totalBytes > length);
    }
  }

  lemma FlattenFrom(chunks: seq<seq<Byte>>, i: nat)
    requires i <= |chunks|
    ensures Flatten(chunks[i..]) == if i == |chunks| then [] else chunks[i] + Flatten(chunks[i + 1..])
  {
    if i < |chunks| {
      assert chunks[i..][1..] == chunks[i + 1..];
    }
  }

  /** After any appends of any sizes: the end of their concatenation, and whether anything was lost. */
  method Capture(maxBytes: nat, chunks: seq<seq<Byte>>) returns (captured: Captured)
    ensures captured.tail == Last(Flatten(chunks), maxBytes)
    ensures maxBytes < MAX_SAFE_INTEGER ==> (captured.truncated <==> |Flatten(chunks)| > maxBytes)
  {
    hide View, Flatten;
    var tail := new BoundedByteTail(maxBytes);
    assert chunks[0..] == chunks;
    for i := 0 to |chunks|
      invariant tail.Valid() && fresh(tail) && fresh(tail.buffer) && tail.maxBytes == maxBytes
      invariant tail.stream + Flatten(chunks[i..]) == Flatten(chunks)
    {
      ghost var before, rest := tail.stream, Flatten(chunks[i + 1..]);
      FlattenFrom(chunks, i);
      assert before + (chunks[i] + rest) == before + chunks[i] + rest;
      tail.Append(chunks[i]);
    }
    FlattenFrom(chunks, |chunks|);
    captured := tail.Snapshot();
  }
}
