/** The 2D debugging driver (the `LatticeDebug` script): the same boundary stamping as the
    2D solver, then a single pass of phase 1, phase 2 or both, chosen by a mode, with the
    three buffer handles rotated through a two-reference swap. */
module Debug2D {
  import opened Gpu
  import Solver2D

  /** Threads per group in a dispatch of either phase kernel. */
  const BlockSize := 256

  datatype Mode = Both | Phase1 | Phase2

  /** The handle roles after `LaplaceEquation`'s swaps in each mode: phase 1 is followed by
      a swap of the read and phase-1-to-2 handles, phase 2 by a swap of the read and write
      handles. */
  function Rotation(mode: Mode, t: Triple): (r: Triple)
    ensures mode == Phase1 ==> r == (t.2, t.1, t.0)
    ensures mode == Phase2 ==> r == (t.1, t.0, t.2)
    ensures mode == Both ==> r == (t.1, t.2, t.0)
  {
    match mode
    case Phase1 => Swapped(t, ReadSlot, Phase1To2Slot)
    case Phase2 => Swapped(t, ReadSlot, WriteSlot)
    case Both => Swapped(Swapped(t, ReadSlot, Phase1To2Slot), ReadSlot, WriteSlot)
  }

  /** In every mode the three handles end as a rearrangement of the three allocated buffers:
      none is lost and none is duplicated. */
  lemma {:induction false} RotationPermutes(mode: Mode, t: Triple)
    ensures var r := Rotation(mode, t); multiset{r.0, r.1, r.2} == multiset{t.0, t.1, t.2}
  {
    SwappedPermutes(t, ReadSlot, Phase1To2Slot);
    SwappedPermutes(t, ReadSlot, WriteSlot);
    SwappedPermutes(Swapped(t, ReadSlot, Phase1To2Slot), ReadSlot, WriteSlot);
  }

  class LatticeDebug {
    const mode: Mode
    const width: nat
    const height: nat
    const edges: Solver2D.Edges
    /** `Laplace_Phase1` of `LaplaceCS_1`. */
    const phase1: Kernel<real>
    /** `Laplace_Phase2` of `LaplaceCS_2`. */
    const phase2: Kernel<real>

    var threadGroupSize: int
    var bufferSize: int
    var potentialRead: array<real>
    var potentialWrite: array<real>
    var bufferRead: Handle
    var bufferWrite: Handle
    var phase1To2: Handle
    /** The contents of every ComputeBuffer the script allocated. */
    var gpu: map<Handle, seq<real>>

    /** The three handles are distinct allocated buffers, every buffer and host array holds
        one value per cell, and a dispatch has a thread for every cell. */
    ghost predicate Valid()
      reads this
    {
      && width > 0 && height > 0
      && bufferSize == width * height
      && threadGroupSize * BlockSize > bufferSize
      && potentialRead.Length == bufferSize && potentialWrite.Length == bufferSize
      && potentialRead != potentialWrite
      && bufferRead != bufferWrite && bufferRead != phase1To2 && bufferWrite != phase1To2
      && bufferRead in gpu && bufferWrite in gpu && phase1To2 in gpu
      && |gpu[bufferRead]| == bufferSize && |gpu[bufferWrite]| == bufferSize
      && |gpu[phase1To2]| == bufferSize
    }

    /** The three handle fields, read, write and phase-1-to-2 in that order. */
    function Handles(): Triple
      reads this
    {
      (bufferRead, bufferWrite, phase1To2)
    }

    /** The handle field a slot names. */
    function Field(s: Slot): (h: Handle)
      reads this
      ensures h == Get(Handles(), s)
    {
      match s
      case ReadSlot => bufferRead
      case WriteSlot => bufferWrite
      case Phase1To2Slot => phase1To2
    }

    /** `Start`: allocate three buffers whose contents are `unset` (what a fresh
        ComputeBuffer holds), stamp the boundary into the read and write buffers, then run the
        pass the mode selects. The host arrays end with the read and write buffers' contents. */
    constructor Start(mode: Mode, width: nat, height: nat, edges: Solver2D.Edges,
                      phase1: Kernel<real>, phase2: Kernel<real>, unset: seq<real>)
      requires width > 0 && height > 0 && |unset| == width * height
      ensures Valid() && fresh(potentialRead) && fresh(potentialWrite)
      ensures this.mode == mode && this.width == width && this.height == height
      ensures this.edges == edges && this.phase1 == phase1 && this.phase2 == phase2
      ensures potentialRead[..] == gpu[bufferRead] && potentialWrite[..] == gpu[bufferWrite]
      ensures mode == Phase1 ==>
        && gpu[bufferRead] == Apply(phase1, Solver2D.Layout(width, height, edges))
        && gpu[bufferWrite] == Solver2D.Layout(width, height, edges)
        && gpu[phase1To2] == Solver2D.Layout(width, height, edges)
      ensures mode == Both ==>
        && gpu[bufferRead] == Apply(phase2, Solver2D.Layout(width, height, edges))
        && gpu[bufferWrite] == Apply(phase1, Solver2D.Layout(width, height, edges))
        && gpu[phase1To2] == Solver2D.Layout(width, height, edges)
      ensures mode == Phase2 ==>
        && gpu[bufferRead] == Apply(phase2, unset)
        && gpu[bufferWrite] == Solver2D.Layout(width, height, edges)
        && gpu[phase1To2] == unset
    {
      this.mode := mode;
      this.width := width;
      this.height := height;
      this.edges := edges;
      this.phase1 := phase1;
      this.phase2 := phase2;
      bufferSize := width * height;
      potentialRead := new real[width * height];
      potentialWrite := new real[width * height];
      threadGroupSize := ThreadGroups(width * height, BlockSize);
      bufferRead, bufferWrite, phase1To2 := 0, 1, 2;
      gpu := map[0 := unset, 1 := unset, 2 := unset];
      new;
      SetBoundaryCondition();
      LaplaceEquation();
    }

    /** `SetBoundaryCondition`: stamp the host array exactly as the 2D solver does and upload
        it to the read and write buffers; `phase1To2` is not touched. */
    method SetBoundaryCondition()
      requires Valid()
      modifies this`gpu, potentialRead
      ensures Valid()
      ensures potentialRead[..] == Solver2D.Layout(width, height, edges)
      ensures gpu == old(gpu)[bufferRead := Solver2D.Layout(width, height, edges)]
                             [bufferWrite := Solver2D.Layout(width, height, edges)]
    {
      Solver2D.Stamp(potentialRead, width, height, edges);
      gpu := gpu[bufferRead := potentialRead[..]];
      gpu := gpu[bufferWrite := potentialRead[..]];
    }

    /** Phase 1 reads `bufferRead` and writes `phase1To2`; then those two handles swap, so
        `bufferRead` names what phase 1 wrote and `phase1To2` the buffer it read. */
    method RunPhase1()
      requires Valid()
      modifies this`gpu, this`bufferRead, this`bufferWrite, this`phase1To2
      ensures Valid()
      ensures bufferRead == old(phase1To2) && phase1To2 == old(bufferRead)
      ensures bufferWrite == old(bufferWrite)
      ensures gpu == old(gpu)[old(phase1To2) := Apply(phase1, old(gpu[bufferRead]))]
    {
      var threads := threadGroupSize * BlockSize;
      DispatchCoversAll(phase1, gpu[bufferRead], gpu[phase1To2], threads);
      gpu := gpu[phase1To2 := Dispatch(phase1, gpu[bufferRead], gpu[phase1To2], threads)];
      SwapBuffer(ReadSlot, Phase1To2Slot);
    }

    /** Phase 2 reads `phase1To2` and writes `bufferWrite`; then the read and write handles
        swap, so `bufferRead` names what phase 2 wrote. */
    method RunPhase2()
      requires Valid()
      modifies this`gpu, this`bufferRead, this`bufferWrite, this`phase1To2
      ensures Valid()
      ensures bufferRead == old(bufferWrite) && bufferWrite == old(bufferRead)
      ensures phase1To2 == old(phase1To2)
      ensures gpu == old(gpu)[old(bufferWrite) := Apply(phase2, old(gpu[phase1To2]))]
    {
      var threads := threadGroupSize * BlockSize;
      DispatchCoversAll(phase2, gpu[phase1To2], gpu[bufferWrite], threads);
      gpu := gpu[bufferWrite := Dispatch(phase2, gpu[phase1To2], gpu[bufferWrite], threads)];
      SwapBuffer(ReadSlot, WriteSlot);
    }

    /** `LaplaceEquation`: phase 1 in modes Both and Phase1, phase 2 in modes Both and
        Phase2, then `GetData` of the read and write buffers. Because of the swap after
        phase 1, phase 2 in mode Both reads the stamped buffer phase 1 read, not phase 1's
        output. In every mode the handles end rearranged. */
    method LaplaceEquation()
      requires Valid()
      modifies this`gpu, this`bufferRead, this`bufferWrite, this`phase1To2,
               potentialRead, potentialWrite
      ensures Valid()
      ensures gpu.Keys == old(gpu.Keys)
      ensures Handles() == Rotation(mode, old(Handles()))
      ensures mode == Phase1 ==>
        && bufferRead == old(phase1To2) && bufferWrite == old(bufferWrite)
        && phase1To2 == old(bufferRead)
        && gpu == old(gpu)[old(phase1To2) := Apply(phase1, old(gpu[bufferRead]))]
      ensures mode == Both ==>
        && bufferRead == old(bufferWrite) && bufferWrite == old(phase1To2)
        && phase1To2 == old(bufferRead)
        && gpu == old(gpu)[old(phase1To2) := Apply(phase1, old(gpu[bufferRead]))]
                          [old(bufferWrite) := Apply(phase2, old(gpu[bufferRead]))]
      ensures mode == Phase2 ==>
        && bufferRead == old(bufferWrite) && bufferWrite == old(bufferRead)
        && phase1To2 == old(phase1To2)
        && gpu == old(gpu)[old(bufferWrite) := Apply(phase2, old(gpu[phase1To2]))]
      ensures potentialRead[..] == gpu[bufferRead] && potentialWrite[..] == gpu[bufferWrite]
    {
      if mode == Both || mode == Phase1 {
        RunPhase1();
      }
      if mode == Both || mode == Phase2 {
        RunPhase2();
      }
      GetData(gpu[bufferRead], potentialRead);
      GetData(gpu[bufferWrite], potentialWrite);
    }

    /** `SwapBuffer(ref src, ref dst)`: the handle fields end as `Swapped` says. */
    method SwapBuffer(src: Slot, dst: Slot)
      modifies this`bufferRead, this`bufferWrite, this`phase1To2
      ensures Handles() == Swapped(old(Handles()), src, dst)
    {
      ghost var sw := Swapped(Handles(), src, dst);
      var tmp := Field(dst);
      Assign(dst, Field(src));
      Assign(src, tmp);
      assert Field(ReadSlot) == Get(sw, ReadSlot);
      assert Field(WriteSlot) == Get(sw, WriteSlot);
      assert Field(Phase1To2Slot) == Get(sw, Phase1To2Slot);
    }

    /** Assignment to the handle field a `ref` names. */
    method Assign(s: Slot, h: Handle)
      modifies this`bufferRead, this`bufferWrite, this`phase1To2
      ensures Field(s) == h
      ensures forall t :: t != s ==> Field(t) == old(Field(t))
    {
      match s
      case ReadSlot => bufferRead := h;
      case WriteSlot => bufferWrite := h;
      case Phase1To2Slot => phase1To2 := h;
    }
  }
}
