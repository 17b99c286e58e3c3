/** The growable byte buffer of src/net/Buffer.hpp, refining a byte queue. */
module Buffers {
  import opened Text

  const CHEAP_PREPEND: nat := 8
  const INITIAL_SIZE: nat := 1024
  const EXTRA_SIZE: nat := 65536

  /** Outcome of a `readv` into the free space followed by the stack scratch area. */
  datatype ReadResult = Failed | Got(bytes: string)

  /** The queue left after taking `len` bytes from the front; taking too many empties it. */
  function Drop(s: string, len: nat): string {
    if len < |s| then s[len..] else ""
  }

  class Buffer {
    var data: array<char>
    var readerIndex: nat
    var writerIndex: nat
    /** The most readable bytes this buffer has held so far. */
    ghost var peak: nat
    ghost const initialSize: nat

    ghost predicate Valid()
      reads this, data
    {
      && CHEAP_PREPEND <= readerIndex <= writerIndex <= data.Length
      && (readerIndex == writerIndex ==> readerIndex == CHEAP_PREPEND)
      && writerIndex - readerIndex <= peak
      && data.Length <= Max(CHEAP_PREPEND + initialSize, 2 * peak + 7)
    }

    /** The bytes waiting to be read: the abstract value of the buffer. */
    function Contents(): (s: string)
      reads this, data
      requires readerIndex <= writerIndex <= data.Length
    {
      data[readerIndex..writerIndex]
    }

    constructor (initialSize: nat := INITIAL_SIZE)
      ensures Valid() && fresh(data)
      ensures Contents() == "" && peak == 0 && this.initialSize == initialSize
    {
      data := new char[CHEAP_PREPEND + initialSize](_ => '\0');
      readerIndex, writerIndex := CHEAP_PREPEND, CHEAP_PREPEND;
      peak := 0;
      this.initialSize := initialSize;
    }

    function ReadableBytes(): int reads this { writerIndex - readerIndex }

    function WritableBytes(): int reads this { data.Length - writerIndex }

    function PrependableBytes(): int reads this { readerIndex }

    method RetrieveAll()
      requires Valid()
      modifies this`readerIndex, this`writerIndex
      ensures Valid() && Contents() == ""
    {
      readerIndex, writerIndex := CHEAP_PREPEND, CHEAP_PREPEND;
    }

    method Retrieve(len: nat)
      requires Valid()
      modifies this`readerIndex, this`writerIndex
      ensures Valid()
      ensures Contents() == Drop(old(Contents()), len)
    {
      if len < ReadableBytes() {
        readerIndex := readerIndex + len;
      } else {
        RetrieveAll();
      }
    }

    method RetrieveAsString(len: nat) returns (s: string)
      requires Valid() && len <= |Contents()|
      modifies this`readerIndex, this`writerIndex
      ensures Valid()
      ensures s + Contents() == old(Contents()) && |s| == len
    {
      s := data[readerIndex..readerIndex + len];
      Retrieve(len);
    }

    /** `_buffer.resize(n)`: the old bytes are kept, new ones are zero. */
    method Resize(n: nat)
      requires data.Length <= n
      modifies this`data
      ensures fresh(data) && data.Length == n
      ensures data[..old(data.Length)] == old(data[..])
    {
      var bytes := data[..];
      data := new char[n](i => if 0 <= i < |bytes| then bytes[i] else '\0');
    }

    /** Makes room by growing, or by moving the readable bytes down when enough has been read. */
    method MakeSpace(len: nat)
      requires Valid() && WritableBytes() < len
      modifies this`data, this`readerIndex, this`writerIndex, data
      ensures CHEAP_PREPEND <= readerIndex <= writerIndex <= data.Length
      ensures WritableBytes() >= len
      ensures Contents() == old(Contents())
      ensures readerIndex == writerIndex ==> readerIndex == CHEAP_PREPEND
      ensures data == old(data) || fresh(data)
      ensures data.Length == old(data.Length)
        || old(data.Length) < data.Length <= 2 * (|Contents()| + len) + 7
    {
      if WritableBytes() + PrependableBytes() < len + CHEAP_PREPEND {
        ghost var bytes := Contents();
        Resize(writerIndex + len);
        assert bytes == data[..old(data.Length)][readerIndex..writerIndex];
        assert data[..old(data.Length)][readerIndex..writerIndex] == data[readerIndex..writerIndex];
      } else {
        MoveDown();
      }
    }

    /** The forward, element by element copy over the bytes already read.  The ranges may
        overlap; the copy is right because the destination is strictly below the source. */
    method MoveDown()
      requires CHEAP_PREPEND < readerIndex <= writerIndex <= data.Length
      modifies this`readerIndex, this`writerIndex, data
      ensures readerIndex == CHEAP_PREPEND <= writerIndex <= data.Length
      ensures Contents() == old(Contents()) && writerIndex == CHEAP_PREPEND + |Contents()|
    {
      ghost var bytes := Contents();
      var readable := ReadableBytes();
      var k := 0;
      while k < readable
        modifies data
        invariant 0 <= k <= readable
        invariant forall j | CHEAP_PREPEND <= j < CHEAP_PREPEND + k :: data[j] == bytes[j - CHEAP_PREPEND]
        invariant forall j | readerIndex + k <= j < writerIndex :: data[j] == bytes[j - readerIndex]
      {
        data[CHEAP_PREPEND + k] := data[readerIndex + k];
        k := k + 1;
      }
      readerIndex := CHEAP_PREPEND;
      writerIndex := readerIndex + readable;
    }

    method EnsureWritableBytes(len: nat)
      requires Valid()
      modifies this`data, this`readerIndex, this`writerIndex, data
      ensures CHEAP_PREPEND <= readerIndex <= writerIndex <= data.Length
      ensures WritableBytes() >= len
      ensures Contents() == old(Contents())
      ensures readerIndex == writerIndex ==> readerIndex == CHEAP_PREPEND
      ensures data == old(data) || fresh(data)
      ensures data.Length == old(data.Length)
        || old(data.Length) < data.Length <= 2 * (|Contents()| + len) + 7
    {
      if WritableBytes() < len {
        MakeSpace(len);
      }
    }

    /** `std::copy` of `bytes` to the free space. */
    method CopyIn(bytes: string)
      requires writerIndex + |bytes| <= data.Length
      modifies data
      ensures data[..writerIndex] == old(data[..writerIndex])
      ensures data[writerIndex..writerIndex + |bytes|] == bytes
    {
      var k := 0;
      while k < |bytes|
        invariant 0 <= k <= |bytes|
        invariant data[..writerIndex] == old(data[..writerIndex])
        invariant forall j | writerIndex <= j < writerIndex + k :: data[j] == bytes[j - writerIndex]
      {
        data[writerIndex + k] := bytes[k];
        k := k + 1;
      }
    }

    /** The readable bytes, read across the old write index. */
    twostate lemma Extended(n: nat)
      requires old(readerIndex <= writerIndex <= data.Length)
      requires data == old(data) && readerIndex == old(readerIndex)
      requires writerIndex == old(writerIndex) + n <= data.Length
      requires data[..old(writerIndex)] == old(data[..writerIndex])
      ensures Contents() == old(Contents()) + data[old(writerIndex)..writerIndex]
    {
      var w := old(writerIndex);
      assert data[readerIndex..w] == data[..w][readerIndex..];
      assert old(data[readerIndex..writerIndex]) == old(data[..writerIndex])[readerIndex..];
    }

    /** Copies `bytes` to the free space and counts them as readable. */
    method Fill(bytes: string)
      requires CHEAP_PREPEND <= readerIndex <= writerIndex <= data.Length - |bytes|
      modifies this`writerIndex, this`peak, data
      ensures writerIndex == old(writerIndex) + |bytes|
      ensures Contents() == old(Contents()) + bytes
      ensures peak == Max(old(peak), |Contents()|)
    {
      CopyIn(bytes);
      writerIndex := writerIndex + |bytes|;
      Extended(|bytes|);
      peak := Max(peak, writerIndex - readerIndex);
    }

    method Append(bytes: string)
      requires Valid()
      modifies this, data
      ensures Valid()
      ensures Contents() == old(Contents()) + bytes
      ensures peak == Max(old(peak), |Contents()|)
      ensures data == old(data) || fresh(data)
      ensures data.Length >= old(data.Length)
    {
      EnsureWritableBytes(|bytes|);
      Fill(bytes);
    }

    /** Offset from `peek()` of the first CR LF. */
    method FindCRLF() returns (r: Option<nat>)
      requires Valid()
      ensures r == FindCrlf(Contents())
    {
      ghost var s := Contents();
      var i := 0;
      while i + 1 < ReadableBytes()
        invariant 0 <= i
        invariant forall k | 0 <= k < i :: !CrlfAt(s, k)
      {
        if data[readerIndex + i] == '\r' && data[readerIndex + i + 1] == '\n' {
          FindCrlfUnique(s, i);
          return Some(i);
        }
        assert !CrlfAt(s, i);
        i := i + 1;
      }
      var found := FindCrlf(s);
      assert found.Some? ==> CrlfAt(s, found.value);
      r := None;
    }

    /** Scatter read: the free space first, then the scratch area, which is appended. */
    method ReadFd(result: ReadResult) returns (n: int)
      requires Valid()
      requires result.Got? ==> |result.bytes| <= WritableBytes() + EXTRA_SIZE
      modifies this, data
      ensures Valid()
      ensures result.Failed? ==> n == -1 && Contents() == old(Contents()) && peak == old(peak)
      ensures result.Got? ==> n == |result.bytes| && Contents() == old(Contents()) + result.bytes
      ensures result.Got? ==> peak == Max(old(peak), |Contents()|)
      ensures data == old(data) || fresh(data)
      ensures data.Length >= old(data.Length)
    {
      if result.Failed? { return -1; }
      var bytes := result.bytes;
      n := |bytes|;
      var writable := WritableBytes();
      var direct := if n <= writable then n else writable;
      // What the kernel does: fill the first segment, then the second.
      Fill(bytes[..direct]);
      var extrabuf := bytes[direct..];
      if n > writable {
        Append(extrabuf);
        assert old(Contents()) + bytes[..direct] + extrabuf == old(Contents()) + bytes;
      } else {
        assert bytes[..direct] == bytes;
      }
    }
  }
}
