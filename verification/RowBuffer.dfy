/** Two-dimensional buffers with aligned rows (include/patton/buffer.hpp, include/patton/detail/buffer.hpp). */
module RowBuffer {
  import opened Wrappers
  import opened ModArith
  import opened Arithmetic
  import opened Storage

  /** `std::ptrdiff_t` of an unsigned number. */
  function Signed(x: Size): int {
    if x < 0x8000_0000_0000_0000 then x else x - SIZE_LIMIT
  }

  const PTRDIFF_MAX: nat := 0x7FFF_FFFF_FFFF_FFFF

  // ----- sizes -----

  function BytesPerRow(cols: nat, elementSize: nat, alignment: nat): nat
    requires alignment > 0
  {
    Ceiling(elementSize * cols, alignment)
  }

  datatype Sizes = BadAlloc | Sizes(bytesPerRow: Size, numBytes: Size)

  /** The sizes as the constructor computes them: a failed step is only noticed at the end. */
  function ComputeSizes(rows: Size, cols: Size, elementSize: Size, alignment: Size): Sizes
    requires alignment != 0
  {
    var rawBytesPerRow := TryMultiplyUnsigned(elementSize, cols);
    var bytesPerRow := TryCeili(rawBytesPerRow.value, alignment);
    var numBytes := TryMultiplyUnsigned(rows, bytesPerRow.value);
    if rawBytesPerRow.tooLarge || bytesPerRow.tooLarge || numBytes.tooLarge then BadAlloc
    else Sizes(bytesPerRow.value, numBytes.value)
  }

  /** A row takes the least multiple of the alignment that holds its elements. */
  lemma RowIsLeast(cols: nat, elementSize: nat, alignment: nat)
    requires alignment > 0 && elementSize * cols >= 0
    ensures IsCeiling(elementSize * cols, alignment, BytesPerRow(cols, elementSize, alignment))
  {
    CeilingIsLeast(elementSize * cols, alignment);
  }

  /** The constructor throws `bad_alloc` exactly when one of the true sizes does not fit, and else has them right. */
  lemma SizingIsExact(rows: Size, cols: Size, elementSize: Size, alignment: Size)
    requires alignment != 0
    ensures var bytesPerRow := BytesPerRow(cols, elementSize, alignment);
      ComputeSizes(rows, cols, elementSize, alignment) ==
        if elementSize * cols <= SIZE_MAX && bytesPerRow <= SIZE_MAX && rows * bytesPerRow <= SIZE_MAX then
          Sizes(bytesPerRow, rows * bytesPerRow)
        else BadAlloc
  {
    hide TryMultiplyUnsigned, TryCeili, Ceiling;
    MultiplyIsExact(elementSize, cols);
    var raw := TryMultiplyUnsigned(elementSize, cols);
    if !raw.tooLarge {
      var c := Ceiling(raw.value, alignment);
      CeilingIsLeast(raw.value, alignment);
      CeiliIsExact(raw.value, alignment, c);
      MultiplyIsExact(rows, TryCeili(raw.value, alignment).value);
    }
  }

  // ----- layout -----

  /** Where elements lie: in rows of `cols` elements, `bytesPerRow` bytes apart, from `data` on. */
  datatype Layout = Layout(data: nat, rows: nat, cols: nat, bytesPerRow: nat, elementSize: nat)

  /** Address of the q-th element in row-major order. */
  function Address(l: Layout, q: nat): nat
    requires l.cols > 0
  {
    l.data + (q / l.cols) * l.bytesPerRow + (q % l.cols) * l.elementSize
  }

  /** The address of the j-th element of the span that `operator []` returns for row i. */
  function SpanAddress(l: Layout, i: nat, j: nat): nat {
    l.data + i * l.bytesPerRow + j * l.elementSize
  }

  /** The first k elements in row-major order. */
  function Prefix(l: Layout, k: nat): (s: seq<nat>)
    requires l.cols > 0
    ensures |s| == k
  {
    seq(k, q requires 0 <= q => Address(l, q))
  }

  lemma PrefixNext(l: Layout, k: nat)
    requires l.cols > 0
    ensures Prefix(l, k + 1) == Prefix(l, k) + [Address(l, k)]
  {
  }

  lemma AddressInSpan(l: Layout, i: nat, j: nat)
    requires j < l.cols
    ensures i * l.cols + j >= 0 && Address(l, i * l.cols + j) == SpanAddress(l, i, j)
  {
    var q := i * l.cols + j;
    assert i * l.cols >= 0;
    DivModUnique(q, i, l.cols, j);
  }

  /** A layout as the constructor makes it. */
  ghost predicate WellSized(l: Layout, alignment: nat) {
    && alignment > 0 && l.cols > 0 && l.elementSize > 0
    && l.bytesPerRow == BytesPerRow(l.cols, l.elementSize, alignment)
  }

  lemma RowHoldsElements(l: Layout, alignment: nat, j: nat)
    requires WellSized(l, alignment) && j < l.cols
    ensures 0 <= j * l.elementSize && j * l.elementSize + l.elementSize <= l.bytesPerRow
  {
    hide Ceiling;
    MulMonotone(j + 1, l.cols, l.elementSize);
    assert (j + 1) * l.elementSize == j * l.elementSize + l.elementSize;
  }

  lemma RowOf(q: nat, rows: nat, cols: nat)
    requires cols > 0 && q < rows * cols
    ensures q / cols < rows && q % cols < cols && q == (q / cols) * cols + q % cols
  {
    if q / cols >= rows {
      MulMonotone(rows, q / cols, cols);
    }
  }

  /** The rows up to row r are inside the first r + 1 of at least that many strides. */
  lemma RowInside(r: nat, rows: nat, bytesPerRow: nat)
    requires r < rows
    ensures 0 <= r * bytesPerRow && r * bytesPerRow + bytesPerRow <= rows * bytesPerRow
  {
    MulMonotone(r + 1, rows, bytesPerRow);
    MulMonotone(0, r, bytesPerRow);
    assert (r + 1) * bytesPerRow == r * bytesPerRow + bytesPerRow;
  }

  /** Elements are inside the allocation. */
  lemma ElementInside(l: Layout, alignment: nat, q: nat)
    requires WellSized(l, alignment) && q < l.rows * l.cols
    ensures l.data <= Address(l, q) && Address(l, q) + l.elementSize <= l.data + l.rows * l.bytesPerRow
  {
    RowOf(q, l.rows, l.cols);
    RowHoldsElements(l, alignment, q % l.cols);
    hide WellSized;
    RowInside(q / l.cols, l.rows, l.bytesPerRow);
  }

  lemma RowsInOrder(p: nat, q: nat, cols: nat)
    requires cols > 0 && p < q
    ensures p / cols < q / cols || (p / cols == q / cols && p % cols < q % cols)
  {
    var r, s := p / cols, q / cols;
    assert p == r * cols + p % cols && q == s * cols + q % cols;
    assert (s + 1) * cols == s * cols + cols;
    MulLess(r, s + 1, cols);
  }

  /** Different elements do not overlap, and row-major order is address order. */
  lemma ElementsDisjoint(l: Layout, alignment: nat, p: nat, q: nat)
    requires WellSized(l, alignment) && p < q
    ensures Address(l, p) + l.elementSize <= Address(l, q)
  {
    var r, s := p / l.cols, q / l.cols;
    RowHoldsElements(l, alignment, p % l.cols);
    RowHoldsElements(l, alignment, q % l.cols);
    RowsInOrder(p, q, l.cols);
    if r < s {
      MulMonotone(r + 1, s, l.bytesPerRow);
      assert (r + 1) * l.bytesPerRow == r * l.bytesPerRow + l.bytesPerRow;
    } else {
      MulMonotone(p % l.cols + 1, q % l.cols, l.elementSize);
      assert (p % l.cols + 1) * l.elementSize == (p % l.cols) * l.elementSize + l.elementSize;
    }
  }

  lemma MultipleOf(k: nat, m: nat, a: nat)
    requires a > 0 && m % a == 0
    ensures (k * m) % a == 0
  {
    assert m == (m / a) * a;
    assert k * m == (k * (m / a)) * a;
    DivModUnique(k * m, k * (m / a), a, 0);
  }

  /** Every row starts at an aligned address, and every element is aligned for its type. */
  lemma RowsAndElementsAligned(l: Layout, alignment: nat, elementAlignment: nat, i: nat, j: nat)
    requires WellSized(l, alignment) && l.data % alignment == 0
    requires elementAlignment > 0 && alignment % elementAlignment == 0 && l.elementSize % elementAlignment == 0
    ensures SpanAddress(l, i, 0) % alignment == 0 && SpanAddress(l, i, j) % elementAlignment == 0
  {
    CeilingIsLeast(l.elementSize * l.cols, alignment);
    MultipleOf(i, l.bytesPerRow, alignment);
    ModShift(l.data, i * l.bytesPerRow, alignment);
    var row := l.data + i * l.bytesPerRow;
    DividesTrans(row, alignment, elementAlignment);
    MultipleOf(j, l.elementSize, elementAlignment);
    ModShift(row, j * l.elementSize, elementAlignment);
  }

  /** The element of row i and column j is constructed, or destroyed, as number i * cols + j, in its place in row i. */
  lemma RowMajorOrder(l: Layout, i: nat, j: nat)
    requires i < l.rows && j < l.cols
    ensures 0 <= i * l.cols + j < l.rows * l.cols
    ensures Constructions(Prefix(l, l.rows * l.cols))[i * l.cols + j]
      == Constructed(l.data + i * l.bytesPerRow + j * l.elementSize)
    ensures Destructions(Prefix(l, l.rows * l.cols))[i * l.cols + j]
      == Destroyed(l.data + i * l.bytesPerRow + j * l.elementSize)
  {
    hide Address;
    MulMonotone(i + 1, l.rows, l.cols);
    assert (i + 1) * l.cols == i * l.cols + l.cols;
    AddressInSpan(l, i, j);
  }

  /** Fewer elements are the first ones. */
  lemma PrefixIsPrefix(l: Layout, k: nat, m: nat)
    requires l.cols > 0 && k <= m
    ensures Prefix(l, k) == Prefix(l, m)[..k]
  {
    hide Address;
  }

  // ----- construction and destruction -----

  lemma RowStep(i: int, r: nat, rows: nat, d: nat)
    requires d > 0 && i == r * d && r <= rows
    ensures i != rows * d <==> r < rows
    ensures i + d == (r + 1) * d
  {
    if r < rows {
      MulMonotone(r + 1, rows, d);
    }
  }

  lemma EndOfRows(rows: nat, d: nat)
    requires rows * d <= PTRDIFF_MAX
    ensures rows * d >= 0 && Signed(Wrap(rows * d)) == rows * d
  {
    assert rows * d >= 0;
    NoWrap(rows * d);
  }

  lemma NextElement(l: Layout, i: int, r: nat, j: nat)
    requires j < l.cols && i == r * l.bytesPerRow
    ensures r * l.cols + j >= 0
    ensures l.data + i + j * l.elementSize == Address(l, r * l.cols + j)
    ensures Prefix(l, r * l.cols + j + 1) == Prefix(l, r * l.cols + j) + [Address(l, r * l.cols + j)]
  {
    AddressInSpan(l, r, j);
    PrefixNext(l, r * l.cols + j);
  }

  /** The strided loops end where they should: the end is a whole number of strides away. */
  ghost predicate Strided(l: Layout) {
    l.cols > 0 && l.bytesPerRow > 0 && l.rows * l.bytesPerRow <= PTRDIFF_MAX
  }

  /**
  Constructs all elements in row-major order and counts them. `failAt` numbers the constructor call that throws.
  */
  method ConstructAlignedRowBuffer(heap: Heap, l: Layout, failAt: Option<nat>)
    returns (numElementsConstructed: nat, threw: bool)
    requires Strided(l)
    modifies heap
    ensures numElementsConstructed <= l.rows * l.cols
    ensures threw <==> failAt.Some? && failAt.value < l.rows * l.cols
    ensures numElementsConstructed == if threw then failAt.value else l.rows * l.cols
    ensures heap.log == old(heap.log) + Constructions(Prefix(l, numElementsConstructed))
  {
    hide Address, Prefix, Constructions, Signed, Wrap;
    numElementsConstructed, threw := 0, false;
    ghost var r: nat := 0;
    EndOfRows(l.rows, l.bytesPerRow);
    var i, d, e, ncols := 0, l.bytesPerRow, Signed(Wrap(l.rows * l.bytesPerRow)), l.cols;
    while i != e
      invariant r <= l.rows && i == r * d && e == l.rows * d
      invariant numElementsConstructed == r * l.cols
      invariant failAt.Some? ==> failAt.value >= numElementsConstructed
      invariant heap.log == old(heap.log) + Constructions(Prefix(l, numElementsConstructed))
      decreases l.rows - r
    {
      RowStep(i, r, l.rows, d);
      RowStep(r * l.cols, r, l.rows, l.cols);
      var j := 0;
      while j != ncols
        invariant j <= ncols
        invariant numElementsConstructed == r * l.cols + j
        invariant failAt.Some? ==> failAt.value >= numElementsConstructed
        invariant heap.log == old(heap.log) + Constructions(Prefix(l, numElementsConstructed))
      {
        NextElement(l, i, r, j);
        ConstructionsConcat(Prefix(l, numElementsConstructed), Address(l, numElementsConstructed));
        threw := failAt == Some(numElementsConstructed);
        heap.Construct(l.data + i + j * l.elementSize, threw);
        if threw {
          MulMonotone(r + 1, l.rows, l.cols);
          return;
        }
        numElementsConstructed := numElementsConstructed + 1;
        j := j + 1;
      }
      i := i + d;
      r := r + 1;
    }
    RowStep(i, r, l.rows, d);
  }

  /** Destroys all elements in row-major order. */
  method DestroyAlignedRowBuffer(heap: Heap, l: Layout)
    requires Strided(l)
    modifies heap
    ensures heap.log == old(heap.log) + Destructions(Prefix(l, l.rows * l.cols))
  {
    hide Address, Prefix, Destructions, Signed, Wrap;
    ghost var r: nat, k: nat := 0, 0;
    EndOfRows(l.rows, l.bytesPerRow);
    var i, d, e, ncols := 0, l.bytesPerRow, Signed(Wrap(l.rows * l.bytesPerRow)), l.cols;
    while i != e
      invariant r <= l.rows && i == r * d && e == l.rows * d && k == r * l.cols
      invariant heap.log == old(heap.log) + Destructions(Prefix(l, k))
      decreases l.rows - r
    {
      RowStep(i, r, l.rows, d);
      RowStep(r * l.cols, r, l.rows, l.cols);
      var j := 0;
      while j != ncols
        invariant j <= ncols && k == r * l.cols + j
        invariant heap.log == old(heap.log) + Destructions(Prefix(l, k))
      {
        NextElement(l, i, r, j);
        DestructionsConcat(Prefix(l, k), Address(l, k));
        heap.Destroy(l.data + i + j * l.elementSize);
        k := k + 1;
        j := j + 1;
      }
      i := i + d;
      r := r + 1;
    }
    RowStep(i, r, l.rows, d);
  }

  /** Destroys the first elements in row-major order, as many as have been constructed. */
  method DestroyConstructedElements(heap: Heap, l: Layout, constructed: nat)
    requires Strided(l) && constructed <= l.rows * l.cols
    modifies heap
    ensures heap.log == old(heap.log) + Destructions(Prefix(l, constructed))
  {
    hide Address, Prefix, Destructions, Signed, Wrap;
    var numElementsConstructed := constructed;
    ghost var r: nat, k: nat := 0, 0;
    EndOfRows(l.rows, l.bytesPerRow);
    var i, d, e, ncols := 0, l.bytesPerRow, Signed(Wrap(l.rows * l.bytesPerRow)), l.cols;
    while i != e
      invariant r <= l.rows && i == r * d && e == l.rows * d && k == r * l.cols
      invariant k + numElementsConstructed == constructed
      invariant heap.log == old(heap.log) + Destructions(Prefix(l, k))
      decreases l.rows - r
    {
      RowStep(i, r, l.rows, d);
      RowStep(r * l.cols, r, l.rows, l.cols);
      var j := 0;
      while j != ncols
        invariant j <= ncols && k == r * l.cols + j
        invariant k + numElementsConstructed == constructed
        invariant heap.log == old(heap.log) + Destructions(Prefix(l, k))
      {
        if numElementsConstructed == 0 {
          return;
        }
        numElementsConstructed := numElementsConstructed - 1;
        NextElement(l, i, r, j);
        DestructionsConcat(Prefix(l, k), Address(l, k));
        heap.Destroy(l.data + i + j * l.elementSize);
        k := k + 1;
        j := j + 1;
      }
      i := i + d;
      r := r + 1;
    }
    RowStep(i, r, l.rows, d);
  }

  // ----- the buffer -----

  class AlignedRowBuffer {
    const heap: Heap
    const elementSize: Size       // sizeof(T)
    const alignment: Size         // alignment_in_bytes(Alignment | alignof(T))
    var data: Option<nat>
    var rows: Size
    var cols: Size
    var bytesPerRow: Size

    constructor (heap: Heap, elementSize: Size, alignment: Size)
      ensures this.heap == heap && this.elementSize == elementSize && this.alignment == alignment && data == None
    {
      this.heap := heap;
      this.elementSize := elementSize;
      this.alignment := alignment;
      data, rows, cols, bytesPerRow := None, 0, 0, 0;
    }

    function LayoutAt(address: nat): Layout
      reads this
    {
      Layout(address, rows, cols, bytesPerRow, elementSize)
    }

    /** The buffer owns storage for `rows` times `cols` elements. */
    ghost predicate Owns(address: nat)
      reads this
    {
      data == Some(address) && Strided(LayoutAt(address)) && WellSized(LayoutAt(address), alignment)
    }

    /**
    The constructor. `where` is the allocator's answer to a request for storage; no allocator hands out more than
    PTRDIFF_MAX bytes. `failAt` numbers the element constructor that throws.
    */
    method Construct(rows: Size, cols: Size, where: Option<nat>, failAt: Option<nat>) returns (outcome: Outcome)
      requires elementSize > 0 && alignment > 0 && data == None
      requires where.Some? && rows * BytesPerRow(cols, elementSize, alignment) <= SIZE_MAX ==>
        rows * BytesPerRow(cols, elementSize, alignment) <= PTRDIFF_MAX
      modifies this, heap
      ensures outcome.OutOfMemory? <==>
        || elementSize * cols > SIZE_MAX
        || BytesPerRow(cols, elementSize, alignment) > SIZE_MAX
        || rows * BytesPerRow(cols, elementSize, alignment) > SIZE_MAX
        || (rows > 0 && cols > 0 && where.None?)
      ensures outcome.ConstructorThrew? <==>
        !outcome.OutOfMemory? && failAt.Some? && failAt.value < rows * cols
      ensures outcome.OutOfMemory? ==> heap.log == old(heap.log) && data == None
      ensures !outcome.OutOfMemory? && (rows == 0 || cols == 0) ==> heap.log == old(heap.log) && data == None
      ensures outcome.Built? ==>
        this.rows == rows && this.cols == cols && bytesPerRow == BytesPerRow(cols, elementSize, alignment)
      ensures outcome.Built? && rows > 0 && cols > 0 ==>
        && Owns(where.value)
        && heap.log == old(heap.log) + [Allocated(where.value, rows * bytesPerRow)]
                       + Constructions(Prefix(LayoutAt(where.value), rows * cols))
      ensures outcome.ConstructorThrew? ==>
        var l := Layout(where.value, rows, cols, BytesPerRow(cols, elementSize, alignment), elementSize);
        && data == None
        && heap.log == old(heap.log) + [Allocated(where.value, rows * l.bytesPerRow)]
                       + Constructions(Prefix(l, failAt.value)) + Destructions(Prefix(l, failAt.value))
                       + [Freed(where.value, rows * l.bytesPerRow)]
    {
      hide Prefix, Constructions, Destructions, Address;
      SizingIsExact(rows, cols, elementSize, alignment);
      this.rows, this.cols := rows, cols;
      var sizes := ComputeSizes(rows, cols, elementSize, alignment);
      if sizes.BadAlloc? {
        return OutOfMemory;
      }
      bytesPerRow := sizes.bytesPerRow;
      if rows == 0 || cols == 0 {
        data := None;
        return Built;
      }
      data := heap.Allocate(sizes.numBytes, where);
      if data.None? {
        return OutOfMemory;
      }
      var l := LayoutAt(data.value);
      RowHoldsElements(l, alignment, 0);
      var transaction := new Transaction();
      var numElementsConstructed, threw := ConstructAlignedRowBuffer(heap, l, failAt);
      if !threw {
        transaction.Commit();
      }
      if !transaction.done {
        DestroyConstructedElements(heap, l, numElementsConstructed);
        heap.Deallocate(data.value, rows * bytesPerRow);
        data := None;  // there is no object whose constructor throws
      }
      outcome := if threw then ConstructorThrew else Built;
    }

    /** The destructor of a buffer that owns storage. */
    method DestroyAndFree()
      requires data.Some? && Owns(data.value)
      modifies heap
      ensures heap.log == old(heap.log) + Destructions(Prefix(LayoutAt(data.value), rows * cols))
                          + [Freed(data.value, rows * bytesPerRow)]
    {
      DestroyAlignedRowBuffer(heap, LayoutAt(data.value));
      heap.Deallocate(data.value, rows * bytesPerRow);
    }
  }
}
