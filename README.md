# Red-black Laplace relaxation drivers, modelled in Dafny

This project models the host-side control logic of a Unity project that relaxes a potential
field on a 2D or 3D lattice under Dirichlet boundary conditions. The stencil arithmetic runs in
compute shaders that the scripts start with `Dispatch`. Three scripts are modelled:

- `LaplaceCS` (module `Solver2D`, file `solver2d.dfy`). It stamps the four edge strengths into
  a row-major `width * height` lattice. It then runs red-black sweeps: phase 1 reads the read
  buffer and writes `phase1_to_2`; phase 2 reads `phase1_to_2` and writes the write buffer.
  After each sweep it measures the largest change and swaps the read and write buffers.
  - In static mode, one call runs a do-while loop to an iteration cap or an error tolerance.
  - In animation mode, each `Update` runs one sweep and sets `finish` once the change drops
    strictly below the tolerance.
- `Laplace3D.Laplace` (module `Solver3D`, file `solver3d.dfy`). It stamps six face strengths
  into a plane-major box of `Cell` records: interior cells hold 0.5, face cells hold their
  face's strength and are flagged as boundary. Each frame it runs the single `Laplace3D` kernel
  and swaps the two buffers.
- `LatticeDebug` (module `Debug2D`, file `debug2d.dfy`). It does the same 2D stamping, then one
  pass of phase 1, phase 2 or both, chosen by a mode. The three buffer handles move through a
  `SwapBuffer(ref, ref)`.

Shared pieces:

- Module `Gpu` (`gpu.dfy`) holds the parts the three scripts share:
  - buffer handles, and kernels as functions from the read buffer and a thread id to one cell;
  - a dispatch that covers only the cells some thread reaches;
  - thread-group sizing;
  - `GetData` as a copy;
  - the three handle roles and the swap of two of them.
- Module `Arith` (`arith.dfy`) holds the quotient and remainder facts the flattened indices
  rest on.

Each script is a class. Its fields are the script's fields. A ComputeBuffer is a `Handle` into
the field `gpu: map<Handle, seq<T>>`, which holds the contents of every allocated buffer.
Unity's `Start` becomes a constructor named `Start`; `Update` and the other callbacks are
methods the caller invokes.

Behaviours of the code as written that the contracts capture:

- In `LatticeDebug`'s mode `Both`, the swap after phase 1 makes phase 2 read the stamped
  buffer, not what phase 1 wrote. The read buffer therefore ends as phase 2 applied to the
  stamped lattice, not as a full sweep.
- In mode `Phase2`, phase 2 reads `phase1_to_2`. Stamping never uploads to that buffer, so it
  holds whatever a fresh buffer holds (the constructor's `unset` parameter).
- The static loop always sweeps at least once, even when `allowed_iter` is 0 or negative. At `allowed_iter = int.MaxValue` its cap never fires (see "## Left out").
- The static loop stops when `errorMax <= allowed_error`. The animation mode stops only when
  `errorMax < allowed_error`, and it has no iteration cap.
- In `Laplace3D`, faces are written in the order front, back, left, right, down, up, so a cell
  on several faces takes the strength of the first of up, down, right, left, back, front that
  it lies on. The 2D stamp writes up, bottom, left, right, so the columns win at the corners.
  The default interior potential is 0 in 2D and 0.5 in 3D.
- `Mathf.CeilToInt(bufferSize / BLOCK) + 1` divides integers first, so the ceiling changes
  nothing. The result is `bufferSize / BLOCK + 1` groups, which gives more threads than cells.
  The dispatch limit of 65535 groups bounds the lattices this sizing can serve (see
  "## Left out").

## Model

| member | source | states |
|---|---|---|
| Arith.RowMajor | Assets/LaplaceCS.cs:84-89 | Cell (x, y) sits at `width*y + x` inside the grid. That index has remainder x and quotient y. It is in the first row iff y = 0 and in the last `width` cells iff y = height-1. |
| Gpu.DispatchCoversAll | Assets/LaplaceCS.cs:112 | With at least as many threads as cells, a dispatch's output depends only on the read buffer: it is the kernel applied to every cell. |
| Gpu.DispatchShortLeavesCell | Assets/LaplaceCS.cs:51 | With fewer threads than cells, the first cell no thread reaches keeps its old value. This is why the group count must cover every cell. |
| Gpu.ThreadGroups | Assets/LaplaceCS.cs:51 | `bufferSize / block + 1` groups give more threads than cells (`groups*block > bufferSize`), and one group fewer would not (`(groups-1)*block <= bufferSize`). |
| Gpu.Dispatch | Assets/LaplaceCS.cs:112 | `Dispatch(kernel, groups, 1, 1)` with `groups * block` threads. Each cell some thread reaches gets the kernel's value from the read buffer, and every other cell keeps what the write buffer held. The result has the write buffer's length. The same call appears at Assets/LaplaceCS.cs:125, Assets/LaplaceCS.cs:169 and 182 (`AnimatedLaplaceEquation`), Assets/3D/Scripts/Laplace.cs:119 and Assets/2D/Scripts/LatticeDebug.cs:93 and 107. |
| Gpu.GetData | Assets/LaplaceCS.cs:129-130 | Afterwards the host array holds exactly the buffer's contents. |
| Gpu.Swapped | Assets/2D/Scripts/LatticeDebug.cs:119-123 | `tmp = dst; dst = src; src = tmp`: the two named roles trade handles, the third role keeps its own, and naming one role twice changes nothing. |
| Gpu.SwappedPermutes | Assets/2D/Scripts/LatticeDebug.cs:119-123 | A swap rearranges the three handles (equal multisets): none is lost and none is duplicated. |
| Gpu.SwappedTwice | Assets/LaplaceCS.cs:212-216 | Swapping the same two roles twice restores the original roles. |
| Solver2D.StampedAt | Assets/LaplaceCS.cs:84-89 | The value cell `i` ends with after the four stamps in source order, the later stamp winning: right if `i % width == width-1`, else left if `i % width == 0`, else bottom if `i >= bufferSize - width`, else up if `i < width`, else 0. |
| Solver2D.StampedAtByPosition | Assets/LaplaceCS.cs:84-89 | For every `i < width*height`, the index-based stamp equals `EdgeValue` of column `i % width` and row `i / width`. This is the converse direction of `LayoutByPosition`. |
| Solver2D.Layout | Assets/LaplaceCS.cs:80-89 | The stamped lattice: `width*height` cells, cell i holding `StampedAt(i)`. |
| Solver2D.Sweep | Assets/LaplaceCS.cs:102-125 | One sweep: phase 2 applied to phase 1's image of the read buffer, with the length preserved. |
| Solver2D.Relax | Assets/LaplaceCS.cs:99-148 | The read buffer's contents after n sweeps, with the length preserved. |
| Solver2D.RelaxAdd | Assets/LaplaceCS.cs:99-148 | m sweeps followed by n more equal m+n sweeps. |
| Solver2D.LayoutByPosition | Assets/LaplaceCS.cs:84-89 | The index-based stamp gives cell (x, y): right strength when x = width-1; otherwise left when x = 0; otherwise bottom when y = height-1; otherwise up when y = 0; otherwise 0. So the columns win at the corners and the last row wins over the first. |
| Solver2D.Stamp | Assets/LaplaceCS.cs:80-89 | The two in-place loops leave the array equal to the stamped layout: every index in `[0, width*height)`, per `StampedAt`, with a later stamp overriding an earlier one. |
| Solver2D.MaxDiffFrom | Assets/LaplaceCS.cs:132-138 | The reduction's result is at least its start value and at least every `|read[i]-write[i]|`, and it equals the start value or one of those differences. |
| Solver2D.MaxAbsDiff | Assets/LaplaceCS.cs:132-138 | The in-place loop over the host arrays computes `MaxDiffFrom`: it bounds every difference and is never below its start value. |
| Solver2D.LaplaceCS.Start | Assets/LaplaceCS.cs:41-59 | Allocation, sizing and stamping. In animation mode (`Stamped`) both buffers and the host read array hold the layout, with `count = 0` and `!finish`. In static mode it solves (`Solved`): `finish`, `1 <= count <= max(0, allowed_iter)+1`; the read buffer is `count` sweeps of the layout, the write buffer `count-1` sweeps and `phase1_to_2` phase 1's image of those; `errorMax` is the last sweep's change; either `count > allowed_iter` or `errorMax <= allowed_error`; every earlier sweep j was within the cap and changed some cell by more than the tolerance; the host arrays hold the last two read-backs. |
| Solver2D.LaplaceCS.Begin | Assets/LaplaceCS.cs:56-58 | Stamping, then the static solve only in static mode, with the same per-mode outcome as `Start`. |
| Solver2D.LaplaceCS.SolveStamped | Assets/LaplaceCS.cs:58 | `LaplaceEquation` from the freshly stamped state ends in the `Solved` state described for `Start`. |
| Solver2D.LaplaceCS.SetBoundaryCondition | Assets/LaplaceCS.cs:78-94 | The host read array holds the layout, both the read and the write buffer receive it, and no other buffer changes. |
| Solver2D.LaplaceCS.RunPhases | Assets/LaplaceCS.cs:102-125 | Phase 1 writes its image of the read buffer into `phase1_to_2`. Phase 2 writes its image of that into the write buffer, i.e. one full sweep of the read buffer. Nothing else changes. |
| Solver2D.LaplaceCS.SweepAndCheck | Assets/LaplaceCS.cs:102-138 | One sweep, then `GetData` of both buffers. The host arrays hold the pre-sweep and post-sweep contents, and `errorMax` folds in every per-cell change. |
| Solver2D.LaplaceCS.StaticSweep | Assets/LaplaceCS.cs:99-145 | If the read buffer holds n sweeps of s0, then afterwards it holds n+1 sweeps, the write buffer holds n sweeps, and `errorMax` is that sweep's largest change. The whole buffer map is stated: `phase1_to_2` gets phase 1's image, the old write buffer the sweep, and every other buffer is unchanged. `count` goes up by one, the read and write handles swap, and the host arrays hold the two read-backs. |
| Solver2D.LaplaceCS.StaticLoop | Assets/LaplaceCS.cs:99-148 | The do-while loop from the start record: at least one sweep, at most `max(start count, allowed_iter)+1` in all, the loop record (`Tracks`) kept for the final count, and exit only with `count > allowed_iter` or `errorMax <= allowed_error`. The host arrays hold the last two read-backs. |
| Solver2D.LaplaceCS.StaticPass | Assets/LaplaceCS.cs:99-148 | One pass of the do-while body keeps the loop's record (`Tracks`) one sweep further, and returns whether the loop stops: `count > allowed_iter` or `errorMax <= allowed_error`. |
| Solver2D.TracksStep | Assets/LaplaceCS.cs:99-148 | From the record after n sweeps, a sweep the exit tests let through gives the record after n+1: phase 1 writes `phase1_to_2`, phase 2 the write buffer, the handles swap back or forth with the parity of n, no other buffer changes, and the history gains sweep n. |
| Solver2D.LaplaceCS.LaplaceEquation | Assets/LaplaceCS.cs:97-154 | The do-while loop terminates after at least one sweep, with `count <= max(old count, allowed_iter)+1`. On exit `count > allowed_iter` or `errorMax <= allowed_error`, and `finish` is set. The read buffer holds `count - old count` sweeps of the old read buffer, the write buffer one sweep fewer and `phase1_to_2` phase 1's image of that; `errorMax` is the last sweep's change. The handles are the original two, swapped iff an odd number of sweeps ran, and every other buffer is unchanged. Every earlier sweep was within the cap and changed some cell by more than the tolerance. The host arrays hold the last two read-backs. |
| Solver2D.LaplaceCS.Update | Assets/LaplaceCS.cs:61-66 | `errorMax` is reset to 0. When finished or not in animation mode, nothing else changes. Otherwise exactly one sweep runs: the read and write handles swap, the old write buffer gets the sweep and `phase1_to_2` phase 1's image, no other buffer changes, the host arrays hold the two read-backs, `count` goes up by 1, and `finish` becomes `errorMax < allowed_error` (strict). |
| Solver2D.LaplaceCS.AnimatedLaplaceEquation | Assets/LaplaceCS.cs:157-210 | One sweep, the error fold, `count + 1`, `finish` set iff already set or `errorMax < allowed_error` (no cap), and the read/write swap. The whole buffer map is stated (the old write buffer gets the sweep, `phase1_to_2` phase 1's image, the rest unchanged), and the host arrays hold the two read-backs. |
| Solver2D.LaplaceCS.SwapBuffer | Assets/LaplaceCS.cs:212-216 | Read and write trade handles and `phase1_to_2` keeps its own (`Swapped` of the read and write roles). |
| Solver3D.IndexInBox | Assets/3D/Scripts/Laplace.cs:61-64 | For a cell in the box, `width*height*z + width*y + x` lies in `[0, width*height*depth)` and decodes back to (x, y, z). |
| Solver3D.IndexInjective | Assets/3D/Scripts/Laplace.cs:61-64 | Distinct cells of the box have distinct indices. |
| Solver3D.CoordsInBox | Assets/3D/Scripts/Laplace.cs:38-39 | Every index of the array is the index of exactly the cell its decoding names, and that cell lies inside the box. |
| Solver3D.BoundaryCell | Assets/3D/Scripts/Laplace.cs:64-99 | Cell (x, y, z) after the loop body: `idx = (x, y, z)`, `pos` the scaled coordinates, boundary iff on a face, potential from the first of up, down, right, left, back, front it lies on, else 0.5. |
| Solver3D.Layout | Assets/3D/Scripts/Laplace.cs:61-102 | The stamped cell array: `width*height*depth` cells, position i holding the `BoundaryCell` of the coordinates i decodes to. |
| Solver3D.LayoutAt | Assets/3D/Scripts/Laplace.cs:61-99 | The stamped array holds cell (x, y, z) at its flattened index. |
| Solver3D.LayoutCells | Assets/3D/Scripts/Laplace.cs:66-99 | In the stamped array, every cell's `idx` is its own coordinates, a cell is flagged boundary iff a coordinate is 0 or its extent minus 1, and every non-boundary cell holds 0.5. |
| Solver3D.StampCell | Assets/3D/Scripts/Laplace.cs:64-99 | The loop body stores the cell with its coordinates, `pos`, and the face priority up, down, right, left, back, front (interior 0.5, not boundary), and touches no other cell. |
| Solver3D.StampCells | Assets/3D/Scripts/Laplace.cs:61-102 | The triple loop leaves the cell array equal to the stamped layout. |
| Solver3D.Laplace.Start | Assets/3D/Scripts/Laplace.cs:36-46 | Allocation, sizing with more threads than cells, and stamping: the cell array and both buffers hold the layout. |
| Solver3D.Laplace.Update | Assets/3D/Scripts/Laplace.cs:48-52 | One kernel pass per frame, with no convergence test. |
| Solver3D.Laplace.SetBoundaryCondition | Assets/3D/Scripts/Laplace.cs:59-107 | The cell array holds the layout, and it is uploaded to both buffers. |
| Solver3D.Laplace.CalcLaplace | Assets/3D/Scripts/Laplace.cs:109-123 | The kernel's image of the read buffer goes into the write buffer. The handles swap, so `GetBuffer` returns the buffer just written and the old read buffer is written next. |
| Solver3D.Laplace.SwapBuffer | Assets/3D/Scripts/Laplace.cs:125-129 | Read and write trade handles. |
| Solver3D.Laplace.GetBuffer | Assets/3D/Scripts/Laplace.cs:131-133 | The handle returned is an allocated buffer of `GetBufferSize()` cells. |
| Solver3D.Laplace.GetBufferSize | Assets/3D/Scripts/Laplace.cs:135-137 | The result is `width*height*depth`. |
| Debug2D.Rotation | Assets/2D/Scripts/LatticeDebug.cs:95-109 | The handle roles after each mode's swaps, as concrete rearrangements of (read, write, phase1_to_2):<br>Phase1 gives (phase1_to_2, write, read).<br>Phase2 gives (write, read, phase1_to_2).<br>Both gives (write, phase1_to_2, read). |
| Debug2D.RotationPermutes | Assets/2D/Scripts/LatticeDebug.cs:83-110 | In every mode the three handles end as a rearrangement of the three allocated buffers. |
| Debug2D.LatticeDebug.Start | Assets/2D/Scripts/LatticeDebug.cs:32-48 | Per mode, from the stamped layout L and the fresh contents `unset`:<br>Phase1: read = phase1(L), write = L, `phase1_to_2` = L.<br>Both: read = phase2(L), not phase2(phase1(L)); write = phase1(L); `phase1_to_2` = L.<br>Phase2: read = phase2(unset), write = L, `phase1_to_2` = unset. |
| Debug2D.LatticeDebug.SetBoundaryCondition | Assets/2D/Scripts/LatticeDebug.cs:64-80 | The same layout as `LaplaceCS` is stamped and uploaded to the read and write buffers; `phase1_to_2` is not touched. |
| Debug2D.LatticeDebug.RunPhase1 | Assets/2D/Scripts/LatticeDebug.cs:85-96 | Phase 1 writes its image of the read buffer into `phase1_to_2`, then these two handles swap: read names phase 1's output and `phase1_to_2` the original read buffer. |
| Debug2D.LatticeDebug.RunPhase2 | Assets/2D/Scripts/LatticeDebug.cs:98-110 | Phase 2 writes its image of `phase1_to_2` into the write buffer, then read and write swap. |
| Debug2D.LatticeDebug.LaplaceEquation | Assets/2D/Scripts/LatticeDebug.cs:83-117 | The handles end as `Rotation(mode, old handles)`. For each mode, the concrete handle roles and buffer contents above are stated. The host arrays receive the read and write buffers. |
| Debug2D.LatticeDebug.SwapBuffer | Assets/2D/Scripts/LatticeDebug.cs:119-123 | The handle fields end as `Swapped` of the two referenced roles: exactly those two trade and nothing else changes. |
| Debug2D.LatticeDebug.Field | Assets/2D/Scripts/LatticeDebug.cs:119 | The field a `ref` names is that role's handle. |
| Debug2D.LatticeDebug.Assign | Assets/2D/Scripts/LatticeDebug.cs:121-122 | Assigning through a `ref` sets that role's handle and no other. |

## Left out

- The compute shaders (`Laplace_Phase1`, `Laplace_Phase2`, `Laplace3D`) are not shown, so every kernel is a parameter. Convergence to a harmonic field is not claimed. The parameter stands for the shader together with the uniforms it sees:
  - In `LaplaceCS`, these are `SOR_COEF`, `BUFFER_SIZE`, `WIDTH` and `HEIGHT`, set before every dispatch.
  - In `LatticeDebug`, these are `BUFFER_SIZE`, `WIDTH` and `HEIGHT`, plus whatever `SOR_COEF` the shader already holds, since this script never sets it.
  - In `Laplace3D`, these are `WIDTH`, `HEIGHT` and `DEPTH`; `BUFFER_SIZE` is never set there.
- Solver2D.LaplaceCS.LaplaceEquation, Solver2D.LaplaceCS.Start, Solver2D.LaplaceCS.Begin: `count` and `allowed_iter` are 32-bit `int`s in the script, and the model's are unbounded. The loop is proved to stop with `count <= max(old count, allowed_iter) + 1`. This matches the script only when `allowed_iter < int.MaxValue`, and the contracts also state that `count` then stays within 32 bits. At `allowed_iter = int.MaxValue`, no 32-bit `count` exceeds the cap, so the script's loop ends only on `errorMax <= allowed_error`. With a tolerance the sweeps never reach, it does not end at all. The model does not capture that non-termination or the wrap-around of `count++`.
- Solver2D.LaplaceCS.Start, Debug2D.LatticeDebug.Start, Solver3D.Laplace.Start: `bufferSize = width * height` (and `width * height * depth` in 3D) is 32-bit in the script and wraps for large extents. The model's product is unbounded.
- A kernel is modelled as writing cell i from thread i, and a thread beyond the last cell as writing nothing. That is the shaders' contract as the sizing code relies on it; it is not visible here.
- `float` is `real`. No rounding is modelled: not in the stencil, not in `Mathf.Abs`, and not in the `pos` field's division (`x / (float)width`).
- Solver2D.LaplaceCS.Start, Solver3D.Laplace.Start, Debug2D.LatticeDebug.Start: these require positive dimensions. The scripts do no validation, and other extents make them throw or stamp a different lattice:
  - In the 2D scripts, `Start` first creates the display texture with `new Texture2D(width, height, …)` (Assets/LaplaceCS.cs:42, Assets/2D/Scripts/LatticeDebug.cs:33). A zero or negative extent makes `Start` fail there, and at the latest at `new ComputeBuffer(bufferSize, …)` (Assets/LaplaceCS.cs:52, Assets/2D/Scripts/LatticeDebug.cs:40). No stamping runs.
  - In `Laplace3D`, which creates no texture, a zero extent makes `new ComputeBuffer(0, …)` throw (Assets/3D/Scripts/Laplace.cs:42), so `Start` fails.
  - A negative product makes the array allocation throw.
  - In `Laplace3D`, an even number of negative extents (say `width = -2, height = -3, depth = 1`) gives a positive length. The array is allocated, but no cell is stamped (the `y` loop runs zero times), so both buffers receive default cells.
  - There is no `InvalidDimensions` outcome in the code, so none is modelled.
- Solver2D.LaplaceCS.Start: a fresh ComputeBuffer is taken to hold zeros. Debug2D.LatticeDebug.Start takes its contents as the parameter `unset` instead, because mode `Phase2` reads such a buffer.
- Solver3D.Laplace.Start: `Cell.idx` is a `Vector3` of floats in the script and a triple of integers in the model. The coordinates are small whole numbers, which a `float` holds exactly below 2^24.
- `mode`, `allowed_error`, `allowed_iter`, `sor_coef`, the extents and the edge strengths are public fields that the Unity Inspector can edit while the scene runs. The model makes them `const`s fixed at `Start`, so edits between frames are not captured.
- Gpu.Dispatch, Gpu.ThreadGroups: Unity rejects a dispatch of more than 65535 thread groups in one dimension (the Direct3D 11 limit). It reports an error and runs no kernel. The model's dispatch runs for any group count. All three scripts dispatch `bufferSize / BLOCK + 1` groups in one dimension, so the cap is passed at 65535 · BLOCK cells:
  - about 6.55M cells in `LaplaceCS` (`BLOCK` = 100, roughly 2560×2560);
  - about 2.1M cells in `Laplace3D` (`BLOCK` = 32, roughly 128³);
  - about 16.8M cells in `LatticeDebug` (`BLOCK` = 256).
  Above that, the buffers a phase should write keep their old contents. In static mode the first sweep then reports `errorMax = 0` and the loop stops with nothing relaxed. So the contents the contracts state (`Solved`, `Tracks`, `Update`, `Rotation`'s buffer contents) hold only below these sizes.
- Gpu.ThreadGroups: `Mathf.CeilToInt` takes a `float`, so the integer quotient `bufferSize / BLOCK` is converted first, and above 2^24 that conversion can round. The dispatch cap of 65535 groups is reached long before that, so the rounding never matters.
- Solver3D.Laplace.Start: the buffers start as the array's default `Cell` values before stamping overwrites them.
- `ApplyTexture`, `OnGUI`, the texture and its colour mapping are not modelled, because they are display only. `Debug.Log` is not modelled either, because it is logging only.
- `Release` in `OnDestroy` is not modelled: buffer lifetime ends with the script. `FindKernel` and `SetBuffer` appear only as which handle each phase reads and writes.
- Render.cs (procedural point rendering) is not part of this model.
- Unity calls `Start`, `Update` and `OnDestroy` as engine callbacks; here the caller invokes them as methods.
