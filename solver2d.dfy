/** The 2D red-black relaxation driver (the `LaplaceCS` script): boundary stamping, the
    run-to-convergence loop, the one-sweep-per-frame animation and the buffer rotation.
    The two phase kernels are parameters; sweeps are stated in terms of `Gpu.Apply`. */
module Solver2D {
  import opened Gpu
  import opened Arith

  /** Threads per group in a dispatch of either phase kernel. */
  const BlockSize := 100

  /** `int.MaxValue`: the largest value the script's 32-bit `count` and `allowed_iter` hold. */
  const Int32Max := 0x7fff_ffff

  datatype Mode = Animation | Static

  /** The Dirichlet value of each edge of the lattice. */
  datatype Edges = Edges(left: real, right: real, up: real, bottom: real)

  // ---------------------------------------------------------------------------------------
  // Boundary stamping

  /** The value cell `i` of a row-major `width` by `height` lattice ends with after the stamps
      up (`i < width`), bottom (last row), left (`i % width == 0`) and right
      (`i % width == width - 1`) are applied in that order: a later stamp wins. */
  function StampedAt(width: nat, height: nat, e: Edges, i: nat): real
    requires width > 0
  {
    if i % width == width - 1 then e.right
    else if i % width == 0 then e.left
    else if i >= width * height - width then e.bottom
    else if i < width then e.up
    else 0.0
  }

  /** Stamping read by position: cell `i` of the lattice is column `i % width` of row
      `i / width`, and it holds that column and row's `EdgeValue`. */
  lemma {:induction false} StampedAtByPosition(width: nat, height: nat, e: Edges, i: nat)
    requires width > 0 && i < width * height
    ensures StampedAt(width, height, e, i) == EdgeValue(width, height, e, i % width, i / width)
  {
    QuotientBelow(i, width, height);
    RowMajor(width, height, i % width, i / width);
  }

  /** The whole stamped lattice. */
  function Layout(width: nat, height: nat, e: Edges): (s: seq<real>)
    requires width > 0
    ensures |s| == width * height
  {
    seq(width * height, (i: int) requires 0 <= i < width * height => StampedAt(width, height, e, i))
  }

  /** The value a cell should hold by its column `x` and row `y`: the columns x = 0 and
      x = width - 1 take the corners, the last row wins over the first row, every cell on no
      edge holds 0. */
  function EdgeValue(width: nat, height: nat, e: Edges, x: nat, y: nat): real
  {
    if x == width - 1 then e.right
    else if x == 0 then e.left
    else if y == height - 1 then e.bottom
    else if y == 0 then e.up
    else 0.0
  }

  /** The index-based stamping agrees with the position-based description: stamping cell
      (x, y) gives it `EdgeValue` of its column and row. */
  lemma {:induction false} LayoutByPosition(width: nat, height: nat, e: Edges, x: nat, y: nat)
    requires x < width && y < height
    ensures width * y + x < width * height
    ensures Layout(width, height, e)[width * y + x] == EdgeValue(width, height, e, x, y)
  {
    RowMajor(width, height, x, y);
  }

  /** The two loops of `SetBoundaryCondition`: zero every cell, then stamp the edges. */
  method Stamp(a: array<real>, width: nat, height: nat, e: Edges)
    requires width > 0 && a.Length == width * height
    modifies a
    ensures a[..] == Layout(width, height, e)
  {
    var n := a.Length;
    for i := 0 to n
      invariant forall k :: 0 <= k < i ==> a[k] == 0.0
    {
      a[i] := 0.0;
    }
    for i := 0 to n
      invariant forall k :: 0 <= k < i ==> a[k] == StampedAt(width, height, e, k)
      invariant forall k :: i <= k < n ==> a[k] == 0.0
    {
      if i < width { a[i] := e.up; }
      if i >= n - width { a[i] := e.bottom; }
      if i % width == 0 { a[i] := e.left; }
      if i % width == width - 1 { a[i] := e.right; }
    }
  }

  // ---------------------------------------------------------------------------------------
  // Error check

  function Abs(r: real): real { if r < 0.0 then -r else r }

  /** The error check loop of `LaplaceEquation` and `AnimatedLaplaceEquation`: starting from
      `acc`, each |read[i] - write[i]| that exceeds the running value replaces it. The result
      is the largest of `acc` and all the differences. */
  function MaxDiffFrom(acc: real, read: seq<real>, write: seq<real>): (m: real)
    requires |read| == |write|
    ensures acc <= m
    ensures forall i :: 0 <= i < |read| ==> Abs(read[i] - write[i]) <= m
    ensures m == acc || exists i :: 0 <= i < |read| && m == Abs(read[i] - write[i])
    decreases |read|
  {
    if |read| == 0 then acc
    else
      var n := |read| - 1;
      var prev := MaxDiffFrom(acc, read[..n], write[..n]);
      var d := Abs(read[n] - write[n]);
      assert forall i :: 0 <= i < n ==> read[..n][i] == read[i] && write[..n][i] == write[i];
      if prev < d then d else prev
  }

  /** The error check run on the arrays `GetData` filled. */
  method MaxAbsDiff(from: real, read: array<real>, write: array<real>) returns (m: real)
    requires read.Length == write.Length
    ensures m == MaxDiffFrom(from, read[..], write[..])
    ensures from <= m
    ensures forall i :: 0 <= i < read.Length ==> Abs(read[i] - write[i]) <= m
  {
    m := from;
    for i := 0 to read.Length
      invariant m == MaxDiffFrom(from, read[..i], write[..i])
    {
      var error := Abs(read[i] - write[i]);
      if m < error {
        m := error;
      }
      assert read[..i + 1][..i] == read[..i] && write[..i + 1][..i] == write[..i];
    }
    assert read[..read.Length] == read[..] && write[..write.Length] == write[..];
  }

  // ---------------------------------------------------------------------------------------
  // Sweeps

  /** One full sweep of the read buffer's contents: phase 1 over them, then phase 2 over the
      buffer phase 1 wrote. */
  function Sweep(phase1: Kernel<real>, phase2: Kernel<real>, s: seq<real>): (r: seq<real>)
    ensures |r| == |s|
  {
    Apply(phase2, Apply(phase1, s))
  }

  /** The contents after `n` sweeps. */
  function Relax(phase1: Kernel<real>, phase2: Kernel<real>, s: seq<real>, n: nat): (r: seq<real>)
    ensures |r| == |s|
  {
    if n == 0 then s else Sweep(phase1, phase2, Relax(phase1, phase2, s, n - 1))
  }

  /** `m` sweeps followed by `n` more are `m + n` sweeps: the static loop can be read as any
      split of its sweeps. */
  lemma {:induction false} RelaxAdd(phase1: Kernel<real>, phase2: Kernel<real>, s: seq<real>, m: nat, n: nat)
    ensures Relax(phase1, phase2, s, m + n) == Relax(phase1, phase2, Relax(phase1, phase2, s, m), n)
    decreases n
  {
    if n > 0 {
      RelaxAdd(phase1, phase2, s, m, n - 1);
      assert m + n - 1 == m + (n - 1);
    }
  }

  /** The `errorMax` the `n`-th sweep reports. */
  function SweepError(phase1: Kernel<real>, phase2: Kernel<real>, s: seq<real>, n: nat): real
    requires n >= 1
  {
    MaxDiffFrom(0.0, Relax(phase1, phase2, s, n - 1), Relax(phase1, phase2, s, n))
  }

  function MaxInt(a: int, b: int): int { if a < b then b else a }

  predicate Even(n: int) { n % 2 == 0 }

  /** Parity alternates. */
  lemma EvenStep(n: int)
    ensures Even(n + 1) == !Even(n)
  {
  }

  /** The state of the static loop after the sweeps since the count was `c0`, starting from
      read contents `s0`, read and write handles `r0`/`w0` and buffer store `g0`. The loop's
      changing fields come last. The read buffer holds the last sweep, the write buffer the one
      before it, `p12` phase 1's image of that one, and `errorMax` the last sweep's change.
      The read and write handles are `r0` and `w0`, swapped (`flipped`) after an odd number
      of sweeps. No other buffer changed. Every sweep before the last was within the cap and
      above the tolerance. */
  ghost predicate Tracks(phase1: Kernel<real>, phase2: Kernel<real>, allowedIter: int, allowedError: real,
                         s0: seq<real>, c0: int, r0: Handle, w0: Handle,
                         g0: map<Handle, seq<real>>, flipped: bool, gpu: map<Handle, seq<real>>,
                         read: Handle, write: Handle, p12: Handle, count: int, errorMax: real)
  {
    && read in gpu && write in gpu && p12 in gpu
    && gpu.Keys == g0.Keys
    && c0 <= count
    && gpu[read] == Relax(phase1, phase2, s0, count - c0)
    && (count > c0 ==>
        && gpu[write] == Relax(phase1, phase2, s0, count - c0 - 1)
        && gpu[p12] == Apply(phase1, Relax(phase1, phase2, s0, count - c0 - 1))
        && errorMax == SweepError(phase1, phase2, s0, count - c0))
    && flipped == !Even(count - c0)
    && (!flipped ==> read == r0 && write == w0)
    && (flipped ==> read == w0 && write == r0)
    && (forall h :: h in g0 && h != r0 && h != w0 && h != p12 ==> gpu[h] == g0[h])
    && (forall j :: 1 <= j < count - c0 ==>
          c0 + j <= allowedIter && allowedError < SweepError(phase1, phase2, s0, j))
  }

  /** One more pass of the static loop, one that its exit tests let through, keeps `Tracks`:
      phase 1 writes `p12`, phase 2 writes the write buffer, the handles swap and the count
      and the error move to the next sweep. */
  lemma TracksStep(phase1: Kernel<real>, phase2: Kernel<real>, allowedIter: int, allowedError: real,
                   s0: seq<real>, c0: int, r0: Handle, w0: Handle,
                   g0: map<Handle, seq<real>>, flipped: bool, gpu: map<Handle, seq<real>>,
                   read: Handle, write: Handle, p12: Handle, count: int, errorMax: real)
    requires Tracks(phase1, phase2, allowedIter, allowedError, s0, c0, r0, w0, g0, flipped,
                    gpu, read, write, p12, count, errorMax)
    requires read != write && read != p12 && write != p12
    requires count == c0 || (count <= allowedIter && allowedError < errorMax)
    ensures Tracks(phase1, phase2, allowedIter, allowedError, s0, c0, r0, w0, g0, !flipped,
                   gpu[p12 := Apply(phase1, gpu[read])][write := Sweep(phase1, phase2, gpu[read])],
                   write, read, p12, count + 1, SweepError(phase1, phase2, s0, count - c0 + 1))
  {
    EvenStep(count - c0);
    assert count + 1 - c0 - 1 == count - c0;
  }

  // ---------------------------------------------------------------------------------------
  // The script

  class LaplaceCS {
    const mode: Mode
    const width: nat
    const height: nat
    const allowedError: real
    const allowedIter: int
    const edges: Edges
    /** `Laplace_Phase1` of `LaplaceCS_1`, with the SOR coefficient it is given. */
    const phase1: Kernel<real>
    /** `Laplace_Phase2` of `LaplaceCS_2`, with the SOR coefficient it is given. */
    const phase2: Kernel<real>

    var threadGroupSize: int
    var bufferSize: int
    var potentialRead: array<real>
    var potentialWrite: array<real>
    var bufferRead: Handle
    var bufferWrite: Handle
    var phase1To2: Handle
    /** The contents of every ComputeBuffer the script allocated. */
    var gpu: map<Handle, seq<real>>
    var count: int
    var finish: bool
    var errorMax: real

    /** The three handles are distinct and are exactly the allocated buffers, every buffer and
        host array holds one value per cell, and a dispatch has a thread for every cell. */
    ghost predicate Valid()
      reads this
    {
      && width > 0 && height > 0
      && bufferSize == width * height
      && threadGroupSize * BlockSize > bufferSize
      && potentialRead.Length == bufferSize && potentialWrite.Length == bufferSize
      && potentialRead != potentialWrite
      && bufferRead != bufferWrite && bufferRead != phase1To2 && bufferWrite != phase1To2
      && bufferRead in gpu && bufferWrite in gpu && phase1To2 in gpu
      && |gpu[bufferRead]| == bufferSize && |gpu[bufferWrite]| == bufferSize
      && |gpu[phase1To2]| == bufferSize
    }

    /** After `SetBoundaryCondition` and no sweep: the read and write buffers and the host
        array hold the stamped lattice. */
    ghost predicate Stamped()
      reads this, potentialRead
    {
      && Valid()
      && count == 0 && !finish
      && gpu[bufferRead] == Layout(width, height, edges)
      && gpu[bufferWrite] == Layout(width, height, edges)
      && potentialRead[..] == Layout(width, height, edges)
    }

    /** After the static solve from the stamped lattice: `count` sweeps ran, the read buffer
        holds the last, the write buffer the one before and `phase1To2` phase 1's image of it;
        `errorMax` is the last sweep's change; the loop stopped at the first sweep past the
        cap or within the tolerance; both host arrays mirror the buffers they were last
        read back from. */
    ghost predicate Solved()
      reads this, potentialRead, potentialWrite
    {
      && Valid()
      && finish && 1 <= count <= MaxInt(0, allowedIter) + 1
      && (count > allowedIter || errorMax <= allowedError)
      && gpu[bufferRead] == Relax(phase1, phase2, Layout(width, height, edges), count)
      && gpu[bufferWrite] == Relax(phase1, phase2, Layout(width, height, edges), count - 1)
      && gpu[phase1To2] == Apply(phase1, Relax(phase1, phase2, Layout(width, height, edges), count - 1))
      && errorMax == SweepError(phase1, phase2, Layout(width, height, edges), count)
      && (forall j :: 1 <= j < count ==>
            j <= allowedIter && allowedError < SweepError(phase1, phase2, Layout(width, height, edges), j))
      && potentialRead[..] == gpu[bufferWrite] && potentialWrite[..] == gpu[bufferRead]
      && (allowedIter < Int32Max ==> count <= Int32Max)
    }

    /** `Start`: allocate, stamp the boundary and, in static mode, solve to the end. */
    constructor Start(mode: Mode, width: nat, height: nat, edges: Edges, allowedError: real,
                      allowedIter: int, phase1: Kernel<real>, phase2: Kernel<real>)
      requires width > 0 && height > 0
      ensures Valid() && fresh(potentialRead) && fresh(potentialWrite)
      ensures this.mode == mode && this.width == width && this.height == height
      ensures this.edges == edges && this.allowedError == allowedError
      ensures this.allowedIter == allowedIter && this.phase1 == phase1 && this.phase2 == phase2
      ensures mode == Animation ==> Stamped()
      ensures mode == Static ==> Solved()
    {
      this.mode := mode;
      this.width := width;
      this.height := height;
      this.edges := edges;
      this.allowedError := allowedError;
      this.allowedIter := allowedIter;
      this.phase1 := phase1;
      this.phase2 := phase2;
      count := 0;
      finish := false;
      errorMax := 0.0;
      bufferSize := width * height;
      potentialRead := new real[width * height];
      potentialWrite := new real[width * height];
      threadGroupSize := ThreadGroups(width * height, BlockSize);
      var blank := seq(width * height, _ => 0.0);
      bufferRead, bufferWrite, phase1To2 := 0, 1, 2;
      gpu := map[0 := blank, 1 := blank, 2 := blank];
      new;
      Begin();
    }

    /** The end of `Start`, once the buffers exist: stamp the boundary and, in static mode,
        solve to the end. */
    method Begin()
      requires Valid() && count == 0 && !finish
      modifies this`gpu, this`bufferRead, this`bufferWrite, this`count, this`errorMax,
               this`finish, potentialRead, potentialWrite
      ensures Valid()
      ensures mode == Animation ==> Stamped()
      ensures mode == Static ==> Solved()
    {
      SetBoundaryCondition();
      if !finish && mode == Static {
        SolveStamped();
      }
    }

    /** The static branch of `Start`: `LaplaceEquation` run on the freshly stamped lattice. */
    method SolveStamped()
      requires Stamped()
      modifies this`gpu, this`bufferRead, this`bufferWrite, this`count, this`errorMax,
               this`finish, potentialRead, potentialWrite
      ensures Solved()
    {
      LaplaceEquation();
    }

    /** `SetBoundaryCondition`: stamp the host array and upload it to the read and write
        buffers. */
    method SetBoundaryCondition()
      requires Valid()
      modifies this`gpu, potentialRead
      ensures Valid()
      ensures potentialRead[..] == Layout(width, height, edges)
      ensures gpu == old(gpu)[bufferRead := Layout(width, height, edges)]
                             [bufferWrite := Layout(width, height, edges)]
    {
      Stamp(potentialRead, width, height, edges);
      gpu := gpu[bufferRead := potentialRead[..]];
      gpu := gpu[bufferWrite := potentialRead[..]];
    }

    /** Phase 1 reads `bufferRead` and writes `phase1To2`; phase 2 reads `phase1To2` and
        writes `bufferWrite`. */
    method RunPhases()
      requires Valid()
      modifies this`gpu
      ensures Valid()
      ensures gpu == old(gpu)[phase1To2 := Apply(phase1, old(gpu[bufferRead]))]
                             [bufferWrite := Sweep(phase1, phase2, old(gpu[bufferRead]))]
    {
      var threads := threadGroupSize * BlockSize;
      DispatchCoversAll(phase1, gpu[bufferRead], gpu[phase1To2], threads);
      gpu := gpu[phase1To2 := Dispatch(phase1, gpu[bufferRead], gpu[phase1To2], threads)];
      DispatchCoversAll(phase2, gpu[phase1To2], gpu[bufferWrite], threads);
      gpu := gpu[bufferWrite := Dispatch(phase2, gpu[phase1To2], gpu[bufferWrite], threads)];
    }

    /** A sweep and its error check: both phases, `GetData` of the read and write buffers
        into the host arrays, and the largest change folded into `errorMax`. The handles do
        not move. */
    method SweepAndCheck()
      requires Valid()
      modifies this`gpu, this`errorMax, potentialRead, potentialWrite
      ensures Valid()
      ensures gpu == old(gpu)[phase1To2 := Apply(phase1, old(gpu[bufferRead]))]
                             [bufferWrite := Sweep(phase1, phase2, old(gpu[bufferRead]))]
      ensures potentialRead[..] == gpu[bufferRead] && potentialWrite[..] == gpu[bufferWrite]
      ensures errorMax == MaxDiffFrom(old(errorMax), gpu[bufferRead], gpu[bufferWrite])
    {
      RunPhases();
      GetData(gpu[bufferRead], potentialRead);
      GetData(gpu[bufferWrite], potentialWrite);
      errorMax := MaxAbsDiff(errorMax, potentialRead, potentialWrite);
    }

    /** `LaplaceEquation` (static mode): sweep at least once, and go on while the sweep count
        has not passed `allowedIter` and the last sweep changed some cell by more than
        `allowedError`. */
    method LaplaceEquation()
      requires Valid()
      modifies this`gpu, this`bufferRead, this`bufferWrite, this`count, this`errorMax,
               this`finish, potentialRead, potentialWrite
      ensures Valid() && finish
      ensures phase1To2 == old(phase1To2) && gpu.Keys == old(gpu.Keys)
      ensures old(count) < count <= MaxInt(old(count), allowedIter) + 1
      ensures old(count) < Int32Max && allowedIter < Int32Max ==> count <= Int32Max
      ensures count > allowedIter || errorMax <= allowedError
      ensures gpu[bufferRead] == Relax(phase1, phase2, old(gpu[bufferRead]), count - old(count))
      ensures gpu[bufferWrite] == Relax(phase1, phase2, old(gpu[bufferRead]), count - old(count) - 1)
      ensures gpu[phase1To2]
           == Apply(phase1, Relax(phase1, phase2, old(gpu[bufferRead]), count - old(count) - 1))
      ensures Even(count - old(count)) ==>
        bufferRead == old(bufferRead) && bufferWrite == old(bufferWrite)
      ensures !Even(count - old(count)) ==>
        bufferRead == old(bufferWrite) && bufferWrite == old(bufferRead)
      ensures forall h :: h in old(gpu) && h != old(bufferRead) && h != old(bufferWrite) && h != phase1To2 ==>
        gpu[h] == old(gpu[h])
      ensures errorMax == SweepError(phase1, phase2, old(gpu[bufferRead]), count - old(count))
      ensures forall j :: 1 <= j < count - old(count) ==>
        old(count) + j <= allowedIter && allowedError < SweepError(phase1, phase2, old(gpu[bufferRead]), j)
      ensures potentialRead[..] == gpu[bufferWrite] && potentialWrite[..] == gpu[bufferRead]
    {
      ghost var flipped := StaticLoop(gpu[bufferRead], count, bufferRead, bufferWrite, gpu);
      finish := true;
    }

    /** The do-while loop of `LaplaceEquation`, from read contents `s0` at count `c0`, until a
        pass says stop. */
    method StaticLoop(ghost s0: seq<real>, ghost c0: int, ghost r0: Handle, ghost w0: Handle,
                      ghost g0: map<Handle, seq<real>>) returns (ghost flipped: bool)
      requires Progress(s0, c0, r0, w0, g0, false) && count == c0
      modifies this`gpu, this`bufferRead, this`bufferWrite, this`count, this`errorMax,
               potentialRead, potentialWrite
      ensures Progress(s0, c0, r0, w0, g0, flipped)
      ensures phase1To2 == old(phase1To2)
      ensures c0 < count <= MaxInt(c0, allowedIter) + 1
      ensures count > allowedIter || errorMax <= allowedError
      ensures potentialRead[..] == gpu[bufferWrite] && potentialWrite[..] == gpu[bufferRead]
    {
      flipped := false;
      var done := false;
      while !done
        invariant Progress(s0, c0, r0, w0, g0, flipped)
        invariant phase1To2 == old(phase1To2)
        invariant count <= MaxInt(c0, allowedIter) + 1
        invariant !done ==> count == c0 || (count <= allowedIter && allowedError < errorMax)
        invariant done ==> c0 < count && (count > allowedIter || errorMax <= allowedError)
        invariant count > c0 ==> potentialRead[..] == gpu[bufferWrite] && potentialWrite[..] == gpu[bufferRead]
        decreases (if done then 0 else 1) + (if count <= allowedIter then allowedIter - count + 1 else 0)
      {
        done := StaticPass(s0, c0, r0, w0, g0, flipped);
        flipped := !flipped;
      }
    }

    /** What the static loop knows after the sweeps since the count was `c0`: see `Tracks`. */
    ghost predicate Progress(s0: seq<real>, c0: int, r0: Handle, w0: Handle,
                             g0: map<Handle, seq<real>>, flipped: bool)
      reads this
    {
      && Valid()
      && Tracks(phase1, phase2, allowedIter, allowedError, s0, c0, r0, w0, g0, flipped,
                gpu, bufferRead, bufferWrite, phase1To2, count, errorMax)
    }

    /** One pass of the do-while body of `LaplaceEquation`: a sweep, then the exit tests.
        `done` says whether the loop stops here. */
    method StaticPass(ghost s0: seq<real>, ghost c0: int, ghost r0: Handle, ghost w0: Handle,
                      ghost g0: map<Handle, seq<real>>, ghost flipped: bool) returns (done: bool)
      requires Progress(s0, c0, r0, w0, g0, flipped)
      requires count == c0 || (count <= allowedIter && allowedError < errorMax)
      modifies this`gpu, this`bufferRead, this`bufferWrite, this`count, this`errorMax,
               potentialRead, potentialWrite
      ensures Progress(s0, c0, r0, w0, g0, !flipped)
      ensures phase1To2 == old(phase1To2) && count == old(count) + 1
      ensures potentialRead[..] == gpu[bufferWrite] && potentialWrite[..] == gpu[bufferRead]
      ensures done == (count > allowedIter || errorMax <= allowedError)
    {
      ghost var g: map<Handle, seq<real>>, r: Handle, w: Handle, c: int, e: real
        := gpu, bufferRead, bufferWrite, count, errorMax;
      assert Tracks(phase1, phase2, allowedIter, allowedError, s0, c0, r0, w0, g0, flipped,
                    g, r, w, phase1To2, c, e);
      TracksStep(phase1, phase2, allowedIter, allowedError, s0, c0, r0, w0, g0, flipped,
                 g, r, w, phase1To2, c, e);
      StaticSweep(s0, c - c0);
      assert gpu == g[phase1To2 := Apply(phase1, g[r])][w := Sweep(phase1, phase2, g[r])];
      assert bufferRead == w && bufferWrite == r && count == c + 1;
      assert errorMax == SweepError(phase1, phase2, s0, c - c0 + 1);
      assert Tracks(phase1, phase2, allowedIter, allowedError, s0, c0, r0, w0, g0, !flipped,
                    gpu, bufferRead, bufferWrite, phase1To2, count, errorMax);
      if count > allowedIter {
        // the `break` out of the do-while
        done := true;
      } else if errorMax <= allowedError {
        // the do-while's own test `errorMax > allowed_error` fails
        done := true;
      } else {
        done := false;
      }
    }

    /** One pass of the static loop's body, up to its exit tests: reset `errorMax`, sweep,
        check the error, swap the buffers and count the sweep. When the read buffer holds the
        contents after `n` sweeps of `s0`, it then holds those after `n + 1`. */
    method StaticSweep(ghost s0: seq<real>, ghost n: nat)
      requires Valid()
      requires gpu[bufferRead] == Relax(phase1, phase2, s0, n)
      modifies this`gpu, this`bufferRead, this`bufferWrite, this`count, this`errorMax,
               potentialRead, potentialWrite
      ensures Valid()
      ensures phase1To2 == old(phase1To2) && gpu.Keys == old(gpu.Keys)
      ensures count == old(count) + 1
      ensures bufferRead == old(bufferWrite) && bufferWrite == old(bufferRead)
      ensures gpu == old(gpu)[phase1To2 := Apply(phase1, old(gpu[bufferRead]))]
                             [old(bufferWrite) := Sweep(phase1, phase2, old(gpu[bufferRead]))]
      ensures gpu[bufferRead] == Relax(phase1, phase2, s0, n + 1)
      ensures gpu[bufferWrite] == Relax(phase1, phase2, s0, n)
      ensures errorMax == SweepError(phase1, phase2, s0, n + 1)
      ensures potentialRead[..] == gpu[bufferWrite] && potentialWrite[..] == gpu[bufferRead]
    {
      errorMax := 0.0;
      SweepAndCheck();
      SwapBuffer();
      count := count + 1;
    }

    /** `Update`: reset `errorMax`, then sweep once if in animation mode and not finished. */
    method Update()
      requires Valid()
      modifies this`gpu, this`bufferRead, this`bufferWrite, this`count, this`errorMax,
               this`finish, potentialRead, potentialWrite
      ensures Valid()
      ensures phase1To2 == old(phase1To2) && gpu.Keys == old(gpu.Keys)
      ensures old(finish) || mode != Animation ==>
        && errorMax == 0.0 && count == old(count) && finish == old(finish) && gpu == old(gpu)
        && bufferRead == old(bufferRead) && bufferWrite == old(bufferWrite)
        && unchanged(potentialRead) && unchanged(potentialWrite)
      ensures !old(finish) && mode == Animation ==>
        && count == old(count) + 1
        && bufferRead == old(bufferWrite) && bufferWrite == old(bufferRead)
        && gpu == old(gpu)[phase1To2 := Apply(phase1, old(gpu[bufferRead]))]
                          [old(bufferWrite) := Sweep(phase1, phase2, old(gpu[bufferRead]))]
        && gpu[bufferRead] == Sweep(phase1, phase2, old(gpu[bufferRead]))
        && gpu[bufferWrite] == old(gpu[bufferRead])
        && errorMax == MaxDiffFrom(0.0, old(gpu[bufferRead]), gpu[bufferRead])
        && finish == (errorMax < allowedError)
        && potentialRead[..] == gpu[bufferWrite] && potentialWrite[..] == gpu[bufferRead]
    {
      errorMax := 0.0;
      if !finish && mode == Animation {
        AnimatedLaplaceEquation();
      }
    }

    /** `AnimatedLaplaceEquation`: one sweep, the error check, the counter, the finish test
        (strict: `errorMax < allowedError`, no iteration cap) and the buffer swap. */
    method AnimatedLaplaceEquation()
      requires Valid()
      modifies this`gpu, this`bufferRead, this`bufferWrite, this`count, this`errorMax,
               this`finish, potentialRead, potentialWrite
      ensures Valid()
      ensures phase1To2 == old(phase1To2) && gpu.Keys == old(gpu.Keys)
      ensures count == old(count) + 1
      ensures bufferRead == old(bufferWrite) && bufferWrite == old(bufferRead)
      ensures gpu == old(gpu)[phase1To2 := Apply(phase1, old(gpu[bufferRead]))]
                             [old(bufferWrite) := Sweep(phase1, phase2, old(gpu[bufferRead]))]
      ensures gpu[bufferRead] == Sweep(phase1, phase2, old(gpu[bufferRead]))
      ensures gpu[bufferWrite] == old(gpu[bufferRead])
      ensures errorMax == MaxDiffFrom(old(errorMax), old(gpu[bufferRead]), gpu[bufferRead])
      ensures finish == (old(finish) || errorMax < allowedError)
      ensures potentialRead[..] == gpu[bufferWrite] && potentialWrite[..] == gpu[bufferRead]
    {
      SweepAndCheck();
      count := count + 1;
      if errorMax < allowedError {
        finish := true;
      }
      SwapBuffer();
    }

    /** The read, write and phase-1-to-2 handles, in that order. */
    function Handles(): Triple
      reads this
    {
      (bufferRead, bufferWrite, phase1To2)
    }

    /** `SwapBuffer`: the read and write handles trade places; `phase1To2` keeps its own. */
    method SwapBuffer()
      modifies this`bufferRead, this`bufferWrite
      ensures Handles() == Swapped(old(Handles()), ReadSlot, WriteSlot)
      ensures bufferRead == old(bufferWrite) && bufferWrite == old(bufferRead)
    {
      var tmp := bufferWrite;
      bufferWrite := bufferRead;
      bufferRead := tmp;
    }
  }
}
