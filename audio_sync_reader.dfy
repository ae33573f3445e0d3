/**
 * The read side of the shared-memory audio channel: a read takes the
 * smaller of the requested size, the largest data size the buffer can hold
 * and the data size the writer recorded, copies that many bytes out of the
 * data region into the caller's buffer, and then clears the whole shared
 * buffer.
 */
module AudioSync {

  newtype uint32 = x: int | 0 <= x < 0x1_0000_0000

  function Min(a: uint32, b: uint32): uint32
  {
    if a <= b then a else b
  }

  /**
   * The number of bytes a read delivers: the smallest of the three bounds,
   * so no bound is exceeded and one of them is met.
   */
  function ReadSize(size: uint32, maxDataSize: uint32, actualDataSize: uint32): (r: uint32)
    ensures r <= size && r <= maxDataSize && r <= actualDataSize
    ensures r == size || r == maxDataSize || r == actualDataSize
  {
    Min(Min(size, maxDataSize), actualDataSize)
  }

  /** The whole request is served exactly when it fits both the buffer's capacity and the data present. */
  lemma FullReadIffRequestFits(size: uint32, maxDataSize: uint32, actualDataSize: uint32)
    ensures ReadSize(size, maxDataSize, actualDataSize) == size <==> size <= maxDataSize && size <= actualDataSize
  {
  }

  /** The caller's buffer after a read: the first `n` bytes of `src`, then its own remaining bytes. */
  function Copied(dest: seq<bv8>, src: seq<bv8>, n: nat): (r: seq<bv8>)
    requires n <= |dest| && n <= |src|
    ensures |r| == |dest|
    ensures forall i :: 0 <= i < n ==> r[i] == src[i]
    ensures forall i :: n <= i < |dest| ==> r[i] == dest[i]
  {
    src[..n] + dest[n..]
  }

  /** A region of `n` zero bytes. */
  function Zeros(n: nat): (r: seq<bv8>)
    ensures |r| == n && forall i :: 0 <= i < n ==> r[i] == 0
  {
    seq(n, _ => 0)
  }

  class AudioSyncReader {
    /** The shared buffer, of its full created size. */
    const sharedMemory: array<bv8>

    constructor (sharedMemory: array<bv8>)
      ensures this.sharedMemory == sharedMemory
    {
      this.sharedMemory := sharedMemory;
    }

    /**
     * Reads into `data`. The data region starts at `dataOffset` in the
     * shared buffer and holds at most `maxDataSize` bytes, of which the
     * writer filled `actualDataSize`; the caller's buffer has room for
     * `size` bytes and lies outside the shared buffer.
     */
    method Read(data: array<bv8>, size: uint32, dataOffset: nat, maxDataSize: uint32, actualDataSize: uint32)
      returns (readSize: uint32)
      requires data != sharedMemory
      requires size as int <= data.Length
      requires dataOffset + maxDataSize as int <= sharedMemory.Length
      modifies data, sharedMemory
      ensures readSize == ReadSize(size, maxDataSize, actualDataSize)
      ensures data[..] == Copied(old(data[..]), old(sharedMemory[dataOffset..]), readSize as nat)
      ensures sharedMemory[..] == Zeros(sharedMemory.Length)
    {
      readSize := Min(size, maxDataSize);
      readSize := Min(readSize, actualDataSize);

      // Copy the data out of the buffer.
      var i := 0;
      while i < readSize as int
        invariant 0 <= i <= readSize as int
        invariant forall j :: 0 <= j < i ==> data[j] == old(sharedMemory[dataOffset + j])
        invariant forall j :: i <= j < data.Length ==> data[j] == old(data[j])
        modifies data
      {
        data[i] := sharedMemory[dataOffset + i];
        i := i + 1;
      }
      assert data[..] == Copied(old(data[..]), old(sharedMemory[dataOffset..]), readSize as nat);

      // Zero out the entire buffer.
      var k := 0;
      while k < sharedMemory.Length
        invariant 0 <= k <= sharedMemory.Length
        invariant forall j :: 0 <= j < k ==> sharedMemory[j] == 0
        modifies sharedMemory
      {
        sharedMemory[k] := 0;
        k := k + 1;
      }
    }

    /**
     * Two reads with no write between them. The first read clears the whole
     * shared buffer, so every byte the second read copies into the caller's
     * buffer is zero, whatever sizes the two calls use.
     */
    method ReadAfterReadDeliversZeros(first: array<bv8>, firstSize: uint32, second: array<bv8>, secondSize: uint32,
                                      dataOffset: nat, maxDataSize: uint32, firstDataSize: uint32, secondDataSize: uint32)
      returns (firstRead: uint32, secondRead: uint32)
      requires first != sharedMemory && second != sharedMemory
      requires firstSize as int <= first.Length && secondSize as int <= second.Length
      requires dataOffset + maxDataSize as int <= sharedMemory.Length
      modifies first, second, sharedMemory
      ensures firstRead == ReadSize(firstSize, maxDataSize, firstDataSize)
      ensures secondRead == ReadSize(secondSize, maxDataSize, secondDataSize)
      ensures forall i :: 0 <= i < secondRead as int ==> second[i] == 0
      ensures sharedMemory[..] == Zeros(sharedMemory.Length)
    {
      firstRead := Read(first, firstSize, dataOffset, maxDataSize, firstDataSize);
      assert forall j :: dataOffset <= j < sharedMemory.Length ==> sharedMemory[j] == 0 by {
        forall j | dataOffset <= j < sharedMemory.Length ensures sharedMemory[j] == 0 {
          assert sharedMemory[j] == sharedMemory[..][j];
        }
      }
      secondRead := Read(second, secondSize, dataOffset, maxDataSize, secondDataSize);
    }
  }
}
