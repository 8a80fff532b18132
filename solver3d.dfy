/** The 3D relaxation driver (the `Laplace3D.Laplace` script): the cell layout of a box
    lattice, its boundary stamping and the one-kernel sweep with its read/write buffer swap. */
module Solver3D {
  import opened Gpu
  import opened Arith

  /** Threads per group in a dispatch of the `Laplace3D` kernel. */
  const BlockSize := 32

  /** One lattice cell as the kernel and the renderer see it: `idx` holds the cell's grid
      coordinates and `pos` the same coordinates scaled into [0, 1). */
  datatype Cell = Cell(isBoundary: bool, potential: real, idx: (int, int, int), pos: (real, real, real))

  /** The Dirichlet value of each face of the box. */
  datatype Faces = Faces(front: real, back: real, left: real, right: real, up: real, down: real)

  // ---------------------------------------------------------------------------------------
  // Plane-major flattening

  /** The position of cell (x, y, z) in the flat cell array. */
  function Index(width: nat, height: nat, x: int, y: int, z: int): int
  {
    width * height * z + width * y + x
  }

  /** The grid coordinates of flat position `i`: its plane, then its row and column within
      the plane. */
  function Coords(width: nat, height: nat, i: nat): (int, int, int)
    requires width > 0 && height > 0
  {
    var r := i % (width * height);
    (r % width, r / width, i / (width * height))
  }

  /** Every cell of a `width` by `height` by `depth` box has a position inside the array,
      and decoding that position gives the cell back. */
  lemma {:induction false} IndexInBox(width: nat, height: nat, depth: nat, x: int, y: int, z: int)
    requires 0 <= x < width && 0 <= y < height && 0 <= z < depth
    ensures 0 <= Index(width, height, x, y, z) < width * height * depth
    ensures Coords(width, height, Index(width, height, x, y, z)) == (x, y, z)
  {
    var plane := width * height;
    var r := width * y + x;
    RowMajor(width, height, x, y);
    assert Index(width, height, x, y, z) == plane * z + r;
    DivModOf(plane, z, r);
    MulMonotone(plane, z + 1, depth);
    MulMonotone(plane, 0, z);
  }

  /** Distinct cells of the box have distinct positions. */
  lemma IndexInjective(width: nat, height: nat, depth: nat, x: int, y: int, z: int, x': int, y': int, z': int)
    requires 0 <= x < width && 0 <= y < height && 0 <= z < depth
    requires 0 <= x' < width && 0 <= y' < height && 0 <= z' < depth
    requires Index(width, height, x, y, z) == Index(width, height, x', y', z')
    ensures x == x' && y == y' && z == z'
  {
    IndexInBox(width, height, depth, x, y, z);
    IndexInBox(width, height, depth, x', y', z');
  }

  /** Every position of the array is the position of some cell of the box: the one its
      coordinates name. */
  lemma {:induction false} CoordsInBox(width: nat, height: nat, depth: nat, i: int)
    requires width > 0 && height > 0 && 0 <= i < width * height * depth
    ensures var (x, y, z) := Coords(width, height, i);
      && 0 <= x < width && 0 <= y < height && 0 <= z < depth
      && Index(width, height, x, y, z) == i
  {
    var plane := width * height;
    assert plane > 0 by {
      MulMonotone(width, 1, height);
    }
    var r := i % plane;
    var z := i / plane;
    var x := r % width;
    var y := r / width;
    assert Coords(width, height, i) == (x, y, z);
    QuotientBelow(i, plane, depth);
    QuotientBelow(r, width, height);
    assert Index(width, height, x, y, z) == plane * z + (width * y + x);
  }

  // ---------------------------------------------------------------------------------------
  // Boundary stamping

  /** The cell (x, y, z) of the stamped box. It is a boundary cell exactly when it lies on a
      face. Its potential is that of the first face in the order up, down, right, left, back,
      front that it lies on (the reverse of the order the faces are written in), and 0.5 when
      it lies on none. */
  function BoundaryCell(width: nat, height: nat, depth: nat, f: Faces, x: int, y: int, z: int): Cell
    requires width > 0 && height > 0 && depth > 0
  {
    Cell(
      isBoundary := x == 0 || x == width - 1 || y == 0 || y == height - 1 || z == 0 || z == depth - 1,
      potential :=
        if y == height - 1 then f.up
        else if y == 0 then f.down
        else if x == width - 1 then f.right
        else if x == 0 then f.left
        else if z == depth - 1 then f.back
        else if z == 0 then f.front
        else 0.5,
      idx := (x, y, z),
      pos := (x as real / width as real, y as real / height as real, z as real / depth as real))
  }

  /** The whole stamped cell array, in flat order. */
  function Layout(width: nat, height: nat, depth: nat, f: Faces): (s: seq<Cell>)
    requires width > 0 && height > 0 && depth > 0
    ensures |s| == width * height * depth
  {
    seq(width * height * depth, (i: int) requires 0 <= i < width * height * depth =>
      var (x, y, z) := Coords(width, height, i); BoundaryCell(width, height, depth, f, x, y, z))
  }

  /** The stamped array holds cell (x, y, z) at the position `Index` gives it. */
  lemma LayoutAt(width: nat, height: nat, depth: nat, f: Faces, x: int, y: int, z: int)
    requires 0 <= x < width && 0 <= y < height && 0 <= z < depth
    ensures 0 <= Index(width, height, x, y, z) < width * height * depth
    ensures Layout(width, height, depth, f)[Index(width, height, x, y, z)]
         == BoundaryCell(width, height, depth, f, x, y, z)
  {
    IndexInBox(width, height, depth, x, y, z);
  }

  /** In the stamped array, a cell that is not a boundary cell holds 0.5 and a cell holds its
      own coordinates in `idx`. */
  lemma LayoutCells(width: nat, height: nat, depth: nat, f: Faces, i: int)
    requires width > 0 && height > 0 && depth > 0 && 0 <= i < width * height * depth
    ensures var c := Layout(width, height, depth, f)[i];
      && Index(width, height, c.idx.0, c.idx.1, c.idx.2) == i
      && (!c.isBoundary ==> c.potential == 0.5)
      && (c.isBoundary <==>
            c.idx.0 in {0, width - 1} || c.idx.1 in {0, height - 1} || c.idx.2 in {0, depth - 1})
  {
    CoordsInBox(width, height, depth, i);
  }

  /** The body of `SetBoundaryCondition`'s innermost loop, for cell (x, y, z): set its
      coordinates, make it an interior cell at 0.5, then let each face it lies on overwrite it
      in the order front, back, left, right, down, up. The cell is built in a local copy and
      stored once; no other cell changes. */
  method StampCell(cells: array<Cell>, width: nat, height: nat, depth: nat, f: Faces, x: int, y: int, z: int)
    requires 0 <= x < width && 0 <= y < height && 0 <= z < depth
    requires cells.Length == width * height * depth
    modifies cells
    ensures 0 <= Index(width, height, x, y, z) < cells.Length
    ensures cells[Index(width, height, x, y, z)] == BoundaryCell(width, height, depth, f, x, y, z)
    ensures forall k :: 0 <= k < cells.Length && k != Index(width, height, x, y, z) ==> cells[k] == old(cells[k])
  {
    IndexInBox(width, height, depth, x, y, z);
    var idx := width * height * z + width * y + x;
    var c := cells[idx];
    c := c.(pos := (x as real / width as real, y as real / height as real, z as real / depth as real));
    c := c.(idx := (x, y, z));
    c := c.(potential := 0.5);
    c := c.(isBoundary := false);
    if z == 0 {
      c := c.(potential := f.front, isBoundary := true);
    }
    if z == depth - 1 {
      c := c.(potential := f.back, isBoundary := true);
    }
    if x == 0 {
      c := c.(potential := f.left, isBoundary := true);
    }
    if x == width - 1 {
      c := c.(potential := f.right, isBoundary := true);
    }
    if y == 0 {
      c := c.(potential := f.down, isBoundary := true);
    }
    if y == height - 1 {
      c := c.(potential := f.up, isBoundary := true);
    }
    cells[idx] := c;
  }

  /** The loops of `SetBoundaryCondition`: stamp every cell, visiting (z, y, x) in that loop
      order, so the flat positions are visited in increasing order. */
  method StampCells(cells: array<Cell>, width: nat, height: nat, depth: nat, f: Faces)
    requires width > 0 && height > 0 && depth > 0
    requires cells.Length == width * height * depth
    modifies cells
    ensures cells[..] == Layout(width, height, depth, f)
  {
    ghost var layout := Layout(width, height, depth, f);
    ghost var next := 0;
    for z := 0 to depth
      invariant next == width * height * z <= cells.Length
      invariant forall k :: 0 <= k < next ==> cells[k] == layout[k]
    {
      for y := 0 to height
        invariant next == width * height * z + width * y <= cells.Length
        invariant forall k :: 0 <= k < next ==> cells[k] == layout[k]
      {
        for x := 0 to width
          invariant next == width * height * z + width * y + x <= cells.Length
          invariant forall k :: 0 <= k < next ==> cells[k] == layout[k]
        {
          LayoutAt(width, height, depth, f, x, y, z);
          StampCell(cells, width, height, depth, f, x, y, z);
          next := next + 1;
        }
        assert next == width * height * z + width * (y + 1);
      }
      assert next == width * height * (z + 1);
      MulMonotone(width * height, z + 1, depth);
    }
    assert cells[..] == layout;
  }

  // ---------------------------------------------------------------------------------------
  // The script

  class Laplace {
    const width: nat
    const height: nat
    const depth: nat
    const faces: Faces
    /** The `Laplace3D` kernel of the `LaplaceCS` shader. */
    const kernel: Kernel<Cell>

    var cells: array<Cell>
    var threadGroupSize: int
    var bufferSize: int
    var bufferRead: Handle
    var bufferWrite: Handle
    /** The contents of every ComputeBuffer the script allocated. */
    var gpu: map<Handle, seq<Cell>>

    /** The two handles are distinct allocated buffers of one cell per lattice site, and a
        dispatch has a thread for every cell. */
    ghost predicate Valid()
      reads this
    {
      && width > 0 && height > 0 && depth > 0
      && bufferSize == cells.Length == width * height * depth
      && threadGroupSize * BlockSize > bufferSize
      && bufferRead != bufferWrite
      && bufferRead in gpu && bufferWrite in gpu
      && |gpu[bufferRead]| == bufferSize && |gpu[bufferWrite]| == bufferSize
    }

    /** `Start`: allocate the cell array and the two buffers, then stamp the boundary. */
    constructor Start(width: nat, height: nat, depth: nat, faces: Faces, kernel: Kernel<Cell>)
      requires width > 0 && height > 0 && depth > 0
      ensures Valid() && fresh(cells)
      ensures this.width == width && this.height == height && this.depth == depth
      ensures this.faces == faces && this.kernel == kernel
      ensures cells[..] == Layout(width, height, depth, faces)
      ensures gpu[bufferRead] == Layout(width, height, depth, faces)
      ensures gpu[bufferWrite] == Layout(width, height, depth, faces)
    {
      this.width := width;
      this.height := height;
      this.depth := depth;
      this.faces := faces;
      this.kernel := kernel;
      cells := new Cell[width * height * depth];
      bufferSize := width * height * depth;
      threadGroupSize := ThreadGroups(width * height * depth, BlockSize);
      bufferRead, bufferWrite := 0, 1;
      new;
      gpu := map[0 := cells[..], 1 := cells[..]];
      SetBoundaryCondition();
    }

    /** `Update`: one sweep per frame, with no convergence test. */
    method Update()
      requires Valid()
      modifies this`gpu, this`bufferRead, this`bufferWrite
      ensures Valid()
      ensures bufferRead == old(bufferWrite) && bufferWrite == old(bufferRead)
      ensures gpu == old(gpu)[old(bufferWrite) := Apply(kernel, old(gpu[bufferRead]))]
    {
      CalcLaplace();
    }

    /** `SetBoundaryCondition`: stamp the cell array and upload it to both buffers. */
    method SetBoundaryCondition()
      requires Valid()
      modifies this`gpu, cells
      ensures Valid()
      ensures cells[..] == Layout(width, height, depth, faces)
      ensures gpu == old(gpu)[bufferRead := Layout(width, height, depth, faces)]
                             [bufferWrite := Layout(width, height, depth, faces)]
    {
      StampCells(cells, width, height, depth, faces);
      gpu := gpu[bufferRead := cells[..]];
      gpu := gpu[bufferWrite := cells[..]];
    }

    /** `CalcLaplace`: the kernel reads `bufferRead` and writes `bufferWrite`, then the two
        swap, so `GetBuffer` hands out the buffer just written and the old read buffer is
        written next time. */
    method CalcLaplace()
      requires Valid()
      modifies this`gpu, this`bufferRead, this`bufferWrite
      ensures Valid()
      ensures bufferRead == old(bufferWrite) && bufferWrite == old(bufferRead)
      ensures GetBuffer() == old(bufferWrite)
      ensures gpu == old(gpu)[old(bufferWrite) := Apply(kernel, old(gpu[bufferRead]))]
      ensures gpu[GetBuffer()] == Apply(kernel, old(gpu[GetBuffer()]))
    {
      var threads := threadGroupSize * BlockSize;
      DispatchCoversAll(kernel, gpu[bufferRead], gpu[bufferWrite], threads);
      gpu := gpu[bufferWrite := Dispatch(kernel, gpu[bufferRead], gpu[bufferWrite], threads)];
      SwapBuffer();
    }

    /** `SwapBuffer`: the read and write handles trade places. */
    method SwapBuffer()
      modifies this`bufferRead, this`bufferWrite
      ensures bufferRead == old(bufferWrite) && bufferWrite == old(bufferRead)
    {
      var tmp := bufferWrite;
      bufferWrite := bufferRead;
      bufferRead := tmp;
    }

    /** `GetBuffer`: the buffer the renderer draws, one that holds a whole lattice. */
    function GetBuffer(): (h: Handle)
      reads this
      requires Valid()
      ensures h in gpu && |gpu[h]| == GetBufferSize()
    {
      bufferRead
    }

    /** `GetBufferSize`: the number of cells in the box. */
    function GetBufferSize(): (n: int)
      reads this
      requires Valid()
      ensures n == width * height * depth
    {
      bufferSize
    }
  }
}
