/** The compute-shader side of the solvers, as the scripts see it.

    A ComputeBuffer is a handle into a store of contents owned by the script. A kernel is
    unseen here: thread `i` reads the whole read buffer and produces cell `i` of the write buffer.
    `Dispatch(kernel, groups, 1, 1)` runs `groups * blockSize` threads, one per cell index. */
module Gpu {

  /** A ComputeBuffer, named by its handle in the script's store. */
  type Handle = nat

  /** A compute kernel: given the read buffer and a thread id, the value it writes at that id. */
  type Kernel<!T> = (seq<T>, nat) -> T

  /** The write buffer a kernel produces when every cell has a thread. */
  function Apply<T>(k: Kernel<T>, src: seq<T>): (r: seq<T>)
    ensures |r| == |src|
  {
    seq(|src|, (i: int) requires 0 <= i < |src| => k(src, i))
  }

  /** The write buffer after a dispatch of `threads` threads over `src` into `dst`: a cell that
      some thread reaches gets the kernel's value, any other cell keeps what `dst` held. */
  function Dispatch<T>(k: Kernel<T>, src: seq<T>, dst: seq<T>, threads: int): (r: seq<T>)
    ensures |r| == |dst|
  {
    seq(|dst|, (i: int) requires 0 <= i < |dst| => if i < threads then k(src, i) else dst[i])
  }

  /** With at least one thread per cell, a dispatch computes the whole write buffer from the
      read buffer alone: what the write buffer held before does not matter. */
  lemma DispatchCoversAll<T>(k: Kernel<T>, src: seq<T>, dst: seq<T>, threads: int)
    requires |src| == |dst| <= threads
    ensures Dispatch(k, src, dst, threads) == Apply(k, src)
  {
  }

  /** With fewer threads than cells, the cell at index `threads` is left as it was. */
  lemma DispatchShortLeavesCell<T>(k: Kernel<T>, src: seq<T>, dst: seq<T>, threads: int)
    requires 0 <= threads < |dst|
    ensures Dispatch(k, src, dst, threads)[threads] == dst[threads]
  {
  }

  /** `Mathf.CeilToInt(bufferSize / blockSize) + 1`: the division is on integers, so the
      ceiling leaves it unchanged. The result is the fewest groups whose threads outnumber
      the cells. */
  function ThreadGroups(bufferSize: nat, blockSize: nat): (groups: nat)
    requires blockSize > 0
    ensures groups * blockSize > bufferSize
    ensures (groups - 1) * blockSize <= bufferSize
  {
    var q := bufferSize / blockSize;
    assert q * blockSize + bufferSize % blockSize == bufferSize;
    assert (q + 1) * blockSize == q * blockSize + blockSize;
    q + 1
  }

  /** `ComputeBuffer.GetData(array)`: the buffer's contents are copied into the array. */
  method GetData<T>(contents: seq<T>, a: array<T>)
    requires |contents| == a.Length
    modifies a
    ensures a[..] == contents
  {
    forall i | 0 <= i < a.Length {
      a[i] := contents[i];
    }
  }

  // ---------------------------------------------------------------------------------------
  // Handle roles

  /** The three handle roles of a red-black solver: read, write and phase-1-to-2. */
  datatype Slot = ReadSlot | WriteSlot | Phase1To2Slot

  /** The read, write and phase-1-to-2 handles, in that order. */
  type Triple = (Handle, Handle, Handle)

  function Get(t: Triple, s: Slot): Handle
  {
    match s
    case ReadSlot => t.0
    case WriteSlot => t.1
    case Phase1To2Slot => t.2
  }

  function Set(t: Triple, s: Slot, h: Handle): (r: Triple)
    ensures Get(r, s) == h
    ensures forall u :: u != s ==> Get(r, u) == Get(t, u)
  {
    match s
    case ReadSlot => (h, t.1, t.2)
    case WriteSlot => (t.0, h, t.2)
    case Phase1To2Slot => (t.0, t.1, h)
  }

  /** The handles after `tmp = dst; dst = src; src = tmp`: the two named slots trade
      handles and the third keeps its own; naming one slot twice changes nothing. */
  function Swapped(t: Triple, src: Slot, dst: Slot): (r: Triple)
    ensures Get(r, src) == Get(t, dst) && Get(r, dst) == Get(t, src)
    ensures forall u :: u != src && u != dst ==> Get(r, u) == Get(t, u)
  {
    Set(Set(t, dst, Get(t, src)), src, Get(t, dst))
  }

  /** A swap rearranges the handles: none is lost and none is duplicated. */
  lemma {:induction false} SwappedPermutes(t: Triple, src: Slot, dst: Slot)
    ensures var r := Swapped(t, src, dst); multiset{r.0, r.1, r.2} == multiset{t.0, t.1, t.2}
  {
    var r := Swapped(t, src, dst);
    if src == dst {
      assert Get(r, ReadSlot) == t.0 && Get(r, WriteSlot) == t.1 && Get(r, Phase1To2Slot) == t.2;
    } else {
      match (src, dst)
      case (ReadSlot, WriteSlot) => assert r == (t.1, t.0, t.2);
      case (WriteSlot, ReadSlot) => assert r == (t.1, t.0, t.2);
      case (ReadSlot, Phase1To2Slot) => assert r == (t.2, t.1, t.0);
      case (Phase1To2Slot, ReadSlot) => assert r == (t.2, t.1, t.0);
      case (WriteSlot, Phase1To2Slot) => assert r == (t.0, t.2, t.1);
      case (Phase1To2Slot, WriteSlot) => assert r == (t.0, t.2, t.1);
    }
  }

  /** Swapping the same two slots again restores the handles. */
  lemma {:induction false} SwappedTwice(t: Triple, src: Slot, dst: Slot)
    ensures Swapped(Swapped(t, src, dst), src, dst) == t
  {
    var r := Swapped(Swapped(t, src, dst), src, dst);
    assert Get(r, ReadSlot) == Get(t, ReadSlot);
    assert Get(r, WriteSlot) == Get(t, WriteSlot);
    assert Get(r, Phase1To2Slot) == Get(t, Phase1To2Slot);
  }
}
