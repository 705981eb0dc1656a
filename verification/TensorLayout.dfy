/**
 tensor_bundle.cpp: byte sizes in 64-bit arithmetic, row-major strides, and the tensors built
 over them.
 */
module TensorLayout {

  import opened BufferModel
  import opened BufferObjects
  import opened Pool

  /** The ten element types; a value cast from another number is Unsupported. */
  datatype DType = Int8 | UInt8 | Int16 | UInt16 | Int32 | UInt32 | Int64 | UInt64 | Float32 | Float64
      | Unsupported(code: int)

  datatype LayoutError = BadShape | BadDType | TooLarge | BadStrides | NullStorage | StorageTooSmall

  datatype Result<+T> = Ok(value: T) | Err(error: LayoutError)

  const INT64_MAX: nat := 0x7FFF_FFFF_FFFF_FFFF

  function BytesPerElement(d: DType): (r: Result<nat>)
    ensures r.Ok? ==> r.value in {1, 2, 4, 8}
    ensures r.Err? <==> d.Unsupported?
  {
    match d
    case Int8 => Ok(1)
    case UInt8 => Ok(1)
    case Int16 => Ok(2)
    case UInt16 => Ok(2)
    case Int32 => Ok(4)
    case UInt32 => Ok(4)
    case Float32 => Ok(4)
    case Int64 => Ok(8)
    case UInt64 => Ok(8)
    case Float64 => Ok(8)
    case Unsupported(_) => Err(BadDType)
  }

  predicate Positive(shape: seq<int>) {
    forall k :: 0 <= k < |shape| ==> shape[k] > 0
  }

  /** The mathematical number of elements. */
  function Product(shape: seq<int>): int {
    if shape == [] then 1 else shape[0] * Product(shape[1..])
  }

  lemma {:induction false} ProductSnoc(shape: seq<int>, d: int)
    ensures Product(shape + [d]) == Product(shape) * d
  {
    if shape == [] {
      assert Product([d]) == d * Product([]);
    } else {
      ProductSnoc(shape[1..], d);
      assert (shape + [d])[1..] == shape[1..] + [d];
      var s, p := shape[0], Product(shape[1..]);
      assert s * (p * d) == (s * p) * d;
    }
  }

  lemma {:induction false} ProductPositive(shape: seq<int>)
    requires Positive(shape)
    ensures Product(shape) >= 1
  {
    if shape == [] {
    } else {
      ProductPositive(shape[1..]);
    }
  }

  /** With positive dimensions a longer shape has at least as many elements. */
  lemma {:induction false} ProductGrows(shape: seq<int>, n: nat)
    requires Positive(shape) && n <= |shape|
    ensures 1 <= Product(shape[..n]) <= Product(shape)
    decreases |shape| - n
  {
    ProductPositive(shape[..n]);
    if n == |shape| {
      assert shape[..n] == shape;
    } else {
      ProductGrows(shape, n + 1);
      assert shape[..n + 1] == shape[..n] + [shape[n]];
      ProductSnoc(shape[..n], shape[n]);
      ElementOnlyGrows(Product(shape[..n]), shape[n]);
    }
  }

  /** `n` positive dimensions whose product fits. */
  predicate FitsUpTo(shape: seq<int>, n: nat) {
    n <= |shape| && Positive(shape[..n]) && Product(shape[..n]) <= SIZE_MAX
  }

  /** The loop stops with an error at the first dimension that is not positive or makes the
      product too large, whichever comes first. */
  method TensorByteSize(shape: seq<int>, dtype: DType) returns (r: Result<nat>)
    ensures Positive(shape) && shape != [] && !dtype.Unsupported? ==>
              r == if Product(shape) * BytesPerElement(dtype).value > SIZE_MAX then Err(TooLarge)
                   else Ok(Product(shape) * BytesPerElement(dtype).value)
    ensures r == Err(BadShape) <==> shape == [] || exists n :: 0 <= n < |shape| && FitsUpTo(shape, n) && shape[n] <= 0
    ensures r.Ok? ==> Positive(shape) && shape != [] && !dtype.Unsupported?
    ensures r == Err(BadDType) ==> dtype.Unsupported? && FitsUpTo(shape, |shape|)
    ensures r.Err? ==> r.error == BadShape || r.error == TooLarge || r.error == BadDType
  {
    if shape == [] {
      return Err(BadShape);
    }
    var count: nat := 1;
    for n := 0 to |shape|
      invariant FitsUpTo(shape, n) && count == Product(shape[..n]) >= 1
      invariant forall k :: 0 <= k < n ==> shape[k] > 0
    {
      if shape[n] <= 0 {
        return Err(BadShape);
      }
      assert shape[..n + 1] == shape[..n] + [shape[n]];
      ProductSnoc(shape[..n], shape[n]);
      QuotientTest(count, shape[n], SIZE_MAX);
      if count > SIZE_MAX / shape[n] {
        LaterIsTooLarge(shape, n + 1);
        if Positive(shape) && !dtype.Unsupported? {
          ProductGrows(shape, n + 1);
          ElementOnlyGrows(Product(shape), BytesPerElement(dtype).value);
        }
        return Err(TooLarge);
      }
      count := count * shape[n];
      ProductPositive(shape[..n + 1]);
    }
    assert shape[..|shape|] == shape;
    var element := BytesPerElement(dtype);
    if element.Err? {
      return Err(BadDType);
    }
    QuotientTest(count, element.value, SIZE_MAX);
    if count > SIZE_MAX / element.value {
      return Err(TooLarge);
    }
    r := Ok(count * element.value);
  }

  lemma ElementOnlyGrows(count: nat, element: nat)
    requires element >= 1
    ensures count * element >= count
  {
    assert count * element == count + count * (element - 1);
  }

  /** Once the product of a prefix is too large, no longer prefix fits. */
  lemma LaterIsTooLarge(shape: seq<int>, n: nat)
    requires n <= |shape| && Positive(shape[..n]) && Product(shape[..n]) > SIZE_MAX
    ensures forall m :: n <= m <= |shape| ==> !FitsUpTo(shape, m)
    ensures forall m :: 0 <= m < n ==> shape[m] > 0
  {
    assert forall m :: 0 <= m < n ==> shape[..n][m] == shape[m];
    forall m | n <= m <= |shape|
      ensures !FitsUpTo(shape, m)
    {
      if Positive(shape[..m]) {
        ProductGrows(shape[..m], n);
        assert shape[..m][..n] == shape[..n];
      }
    }
  }

  // ---------- Strides

  /** The row-major stride of dimension `k` in bytes. */
  function Stride(shape: seq<int>, element: nat, k: nat): int
    requires k < |shape|
  {
    element * Product(shape[k + 1..])
  }

  function Strides(shape: seq<int>, element: nat): seq<int> {
    seq(|shape|, k requires 0 <= k < |shape| => Stride(shape, element, k))
  }

  lemma {:induction false} SuffixAtMostWhole(shape: seq<int>, k: nat)
    requires Positive(shape) && k <= |shape|
    ensures 1 <= Product(shape[k..]) <= Product(shape)
  {
    ProductPositive(shape[k..]);
    if k == 0 {
      assert shape[0..] == shape;
    } else {
      SuffixAtMostWhole(shape, k - 1);
      assert shape[k - 1..][1..] == shape[k..];
      var d, p := shape[k - 1], Product(shape[k..]);
      assert d * p >= 1 * p;
    }
  }

  lemma StrideStep(shape: seq<int>, element: nat, i: nat)
    requires Positive(shape) && 0 < i < |shape|
    ensures Stride(shape, element, i - 1) == Stride(shape, element, i) * shape[i]
    ensures 1 <= element ==> Stride(shape, element, i - 1) <= Product(shape) * element
  {
    assert shape[i..][1..] == shape[i + 1..];
    var p, d := Product(shape[i + 1..]), shape[i];
    assert element * (d * p) == (element * p) * d;
    SuffixAtMostWhole(shape, i);
    Monotone(Product(shape[i..]), Product(shape), element);
  }

  lemma Monotone(a: nat, b: nat, c: nat)
    requires a <= b
    ensures a * c <= b * c && c * a <= c * b
  {
    MulMonotone(a, b, c);
  }

  /** The vector is filled from the back.  The method has no result for the stride overflow
      the source tests for: once the byte size fits, that branch cannot be taken. */
  method ContiguousStrides(shape: seq<int>, dtype: DType) returns (r: Result<seq<int>>)
    ensures r.Ok? <==>
              && Positive(shape) && shape != [] && !dtype.Unsupported?
              && Product(shape) * BytesPerElement(dtype).value <= SIZE_MAX
    ensures r.Ok? ==> r.value == Strides(shape, BytesPerElement(dtype).value)
    ensures r.Err? ==> r.error == BadShape || r.error == TooLarge || r.error == BadDType
  {
    var size := TensorByteSize(shape, dtype);
    if size.Err? {
      return Err(size.error);
    }
    var element := BytesPerElement(dtype).value;
    var n := |shape|;
    var strides := new int[n];
    strides[n - 1] := element;
    assert shape[n..] == [];
    var i := n - 1;
    while i > 0
      invariant 0 <= i < n && strides.Length == n
      invariant forall k :: i <= k < n ==> strides[k] == Stride(shape, element, k)
    {
      var next: nat := shape[i];
      StrideStep(shape, element, i);
      SuffixAtMostWhole(shape, i + 1);
      QuotientTest(strides[i], next, SIZE_MAX);
      if strides[i] > SIZE_MAX / next {
        assert false;
      }
      strides[i - 1] := strides[i] * next;
      i := i - 1;
    }
    r := Ok(strides[..]);
  }

  // ---------- Offsets

  /** A multi-index inside the shape. */
  predicate InRange(idx: seq<int>, shape: seq<int>) {
    |idx| == |shape| && forall k :: 0 <= k < |idx| ==> 0 <= idx[k] < shape[k]
  }

  /** The byte offset the strides give a multi-index. */
  function Offset(idx: seq<int>, strides: seq<int>): int
    requires |idx| == |strides|
  {
    if idx == [] then 0 else idx[0] * strides[0] + Offset(idx[1..], strides[1..])
  }

  /** The position in row-major order. */
  function Position(idx: seq<int>, shape: seq<int>): int
    requires |idx| == |shape|
  {
    if idx == [] then 0 else idx[0] * Product(shape[1..]) + Position(idx[1..], shape[1..])
  }

  function IndexAt(m: int, shape: seq<int>): seq<int>
    requires Positive(shape)
    decreases |shape|
  {
    if shape == [] then []
    else
      ProductPositive(shape[1..]);
      [m / Product(shape[1..])] + IndexAt(m % Product(shape[1..]), shape[1..])
  }

  lemma StridesOfRest(shape: seq<int>, element: nat)
    requires shape != []
    ensures Strides(shape, element)[1..] == Strides(shape[1..], element)
  {
    forall k | 0 <= k < |shape| - 1
      ensures Strides(shape, element)[1..][k] == Strides(shape[1..], element)[k]
    {
      assert shape[1..][k + 1..] == shape[k + 2..];
    }
  }

  lemma Distribute(e: int, a: int, p: int, q: int)
    ensures a * (e * p) + e * q == e * (a * p + q)
  {
    assert a * (e * p) == e * (a * p);
  }

  lemma {:induction false} OffsetIsPosition(idx: seq<int>, shape: seq<int>, element: nat)
    requires |idx| == |shape|
    ensures Offset(idx, Strides(shape, element)) == element * Position(idx, shape)
  {
    if idx == [] {
    } else {
      OffsetIsPosition(idx[1..], shape[1..], element);
      StridesOfRest(shape, element);
      var a, p, q := idx[0], Product(shape[1..]), Position(idx[1..], shape[1..]);
      var first := element * p;
      assert Strides(shape, element)[0] == first;
      var offset := a * first + element * q;
      assert Offset(idx, Strides(shape, element)) == offset;
      Distribute(element, a, p, q);
    }
  }

  lemma {:induction false} PositionInRange(idx: seq<int>, shape: seq<int>)
    requires Positive(shape) && InRange(idx, shape)
    ensures 0 <= Position(idx, shape) < Product(shape)
  {
    if idx == [] {
    } else {
      PositionInRange(idx[1..], shape[1..]);
      NextRow(idx[0], shape[0], Product(shape[1..]));
    }
  }

  lemma NoMultipleBetween(d: int, p: int)
    requires p > 0 && -p < d * p < p
    ensures d == 0
  {
    assert (-d) * p == -(d * p);
    if d >= 1 {
      Monotone(1, d, p);
    } else if d <= -1 {
      Monotone(1, -d, p);
    }
  }

  lemma Cancel(e: nat, x: int, y: int)
    requires e >= 1 && e * x == e * y
    ensures x == y
  {
    assert (x - y) * e == e * x - e * y;
    NoMultipleBetween(x - y, e);
  }

  lemma Commutes(a: int, b: int)
    ensures a * b == b * a
  {}

  lemma MultipleHasNoRest(m: int, e: int)
    requires e >= 1
    ensures (m * e) % e == 0
  {
    DivRem(m, e, 0);
  }

  lemma Scaled(m: nat, n: nat, e: nat)
    requires m < n && e >= 1
    ensures 0 <= e * m < n * e && (e * m) % e == 0
  {
    Commutes(e, m);
    NextRow(m, n, e);
    Monotone(0, m, e);
    MultipleHasNoRest(m, e);
  }

  lemma DivRem(a: int, p: int, q: int)
    requires p > 0 && 0 <= q < p
    ensures (a * p + q) / p == a && (a * p + q) % p == q
  {
    var x, y := (a * p + q) / p, (a * p + q) % p;
    assert a * p + q == x * p + y;
    assert (x - a) * p == q - y;
    NoMultipleBetween(x - a, p);
  }

  lemma {:induction false} IndexOfPosition(idx: seq<int>, shape: seq<int>)
    requires Positive(shape) && InRange(idx, shape)
    ensures IndexAt(Position(idx, shape), shape) == idx
  {
    if idx == [] {
    } else {
      PositionInRange(idx[1..], shape[1..]);
      IndexOfPosition(idx[1..], shape[1..]);
      DivRem(idx[0], Product(shape[1..]), Position(idx[1..], shape[1..]));
    }
  }

  /** The quotient and remainder of a position below `d * p`. */
  lemma DivideBelow(m: int, d: int, p: int)
    requires p >= 1 && 0 <= m < d * p
    ensures 0 <= m / p < d && 0 <= m % p < p && (m / p) * p + m % p == m
  {
    var a := m / p;
    assert a * p + m % p == m;
    if a >= d { Monotone(d, a, p); }
    if a < 0 { NegativeProduct(a, p); }
  }

  lemma NegativeProduct(a: int, p: int)
    requires a < 0 && p >= 1
    ensures a * p <= -p
  {
    Monotone(1, -a, p);
    assert (-a) * p == -(a * p);
  }

  lemma {:induction false} PositionOfIndex(m: int, shape: seq<int>)
    requires Positive(shape) && 0 <= m < Product(shape)
    ensures InRange(IndexAt(m, shape), shape) && Position(IndexAt(m, shape), shape) == m
  {
    if shape == [] {
    } else {
      var d, p := shape[0], Product(shape[1..]);
      ProductPositive(shape[1..]);
      DivideBelow(m, d, p);
      var a, q := m / p, m % p;
      PositionOfIndex(q, shape[1..]);
      var idx, rest := IndexAt(m, shape), IndexAt(q, shape[1..]);
      assert idx == [a] + rest;
      InRangeCons(a, rest, d, shape);
      assert idx[1..] == rest;
      var first := a * p;
      assert Position(idx, shape) == first + Position(rest, shape[1..]);
    }
  }

  lemma InRangeCons(a: int, rest: seq<int>, d: int, shape: seq<int>)
    requires shape != [] && shape[0] == d && 0 <= a < d && InRange(rest, shape[1..])
    ensures InRange([a] + rest, shape)
  {
    var idx := [a] + rest;
    forall k | 0 <= k < |idx|
      ensures 0 <= idx[k] < shape[k]
    {
      if k > 0 { assert idx[k] == rest[k - 1] && shape[k] == shape[1..][k - 1]; }
    }
  }

  lemma OffsetIsAligned(shape: seq<int>, element: nat, idx: seq<int>)
    requires Positive(shape) && element >= 1 && InRange(idx, shape)
    ensures 0 <= Offset(idx, Strides(shape, element)) < Product(shape) * element
    ensures Offset(idx, Strides(shape, element)) % element == 0
  {
    OffsetIsPosition(idx, shape, element);
    PositionInRange(idx, shape);
    Scaled(Position(idx, shape), Product(shape), element);
  }

  lemma OffsetIsInjective(shape: seq<int>, element: nat, i: seq<int>, j: seq<int>)
    requires Positive(shape) && element >= 1 && InRange(i, shape) && InRange(j, shape)
    requires Offset(i, Strides(shape, element)) == Offset(j, Strides(shape, element))
    ensures i == j
  {
    OffsetIsPosition(i, shape, element);
    OffsetIsPosition(j, shape, element);
    Cancel(element, Position(i, shape), Position(j, shape));
    IndexOfPosition(i, shape);
    IndexOfPosition(j, shape);
  }

  /** The strides place the elements exactly: in-range indices and aligned byte offsets below
      the byte size correspond one to one. */
  lemma OffsetsAreABijection(shape: seq<int>, element: nat)
    requires Positive(shape) && element >= 1
    ensures forall idx :: InRange(idx, shape) ==>
                            0 <= Offset(idx, Strides(shape, element)) < Product(shape) * element
                            && Offset(idx, Strides(shape, element)) % element == 0
    ensures forall i, j :: InRange(i, shape) && InRange(j, shape) && i != j ==>
                             Offset(i, Strides(shape, element)) != Offset(j, Strides(shape, element))
    ensures forall o :: 0 <= o < Product(shape) * element && o % element == 0 ==>
                          exists idx :: InRange(idx, shape) && Offset(idx, Strides(shape, element)) == o
  {
    forall idx | InRange(idx, shape)
      ensures 0 <= Offset(idx, Strides(shape, element)) < Product(shape) * element
      ensures Offset(idx, Strides(shape, element)) % element == 0
    {
      OffsetIsAligned(shape, element, idx);
    }
    forall i, j | InRange(i, shape) && InRange(j, shape)
        && Offset(i, Strides(shape, element)) == Offset(j, Strides(shape, element))
      ensures i == j
    {
      OffsetIsInjective(shape, element, i, j);
    }
    forall o | 0 <= o < Product(shape) * element && o % element == 0
      ensures exists idx :: InRange(idx, shape) && Offset(idx, Strides(shape, element)) == o
    {
      AlignedHasIndex(shape, element, o);
    }
  }

  lemma AlignedHasIndex(shape: seq<int>, element: nat, o: int)
    requires Positive(shape) && element >= 1 && 0 <= o < Product(shape) * element && o % element == 0
    ensures exists idx :: InRange(idx, shape) && Offset(idx, Strides(shape, element)) == o
  {
    var m := o / element;
    DivideBelow(o, Product(shape), element);
    PositionOfIndex(m, shape);
    OffsetIsPosition(IndexAt(m, shape), shape, element);
  }

  predicate Lexicographic(i: seq<int>, j: seq<int>)
    requires |i| == |j|
  {
    i != [] && (i[0] < j[0] || (i[0] == j[0] && Lexicographic(i[1..], j[1..])))
  }

  lemma NextRow(a: nat, b: nat, p: nat)
    requires a < b
    ensures a * p + p <= b * p
  {
    Monotone(a + 1, b, p);
    assert (a + 1) * p == a * p + p;
  }

  lemma {:induction false} PositionsAreRowMajor(i: seq<int>, j: seq<int>, shape: seq<int>)
    requires Positive(shape) && InRange(i, shape) && InRange(j, shape) && Lexicographic(i, j)
    ensures Position(i, shape) < Position(j, shape)
  {
    PositionInRange(i[1..], shape[1..]);
    PositionInRange(j[1..], shape[1..]);
    var p := Product(shape[1..]);
    if i[0] < j[0] {
      NextRow(i[0], j[0], p);
    } else {
      PositionsAreRowMajor(i[1..], j[1..], shape[1..]);
    }
  }

  /** Row-major: a lexicographically smaller index lies at a smaller offset. */
  lemma OffsetsAreRowMajor(i: seq<int>, j: seq<int>, shape: seq<int>, element: nat)
    requires Positive(shape) && element >= 1 && InRange(i, shape) && InRange(j, shape) && Lexicographic(i, j)
    ensures Offset(i, Strides(shape, element)) < Offset(j, Strides(shape, element))
  {
    PositionsAreRowMajor(i, j, shape);
    OffsetIsPosition(i, shape, element);
    OffsetIsPosition(j, shape, element);
    ScaledLess(Position(i, shape), Position(j, shape), element);
  }

  lemma ScaledLess(m: int, n: int, e: nat)
    requires m < n && e >= 1
    ensures e * m < e * n
  {
    Monotone(1, n - m, e);
    assert e * (n - m) == e * n - e * m;
  }

  // ---------- Tensors

  datatype Storage = Host(size: nat) | Device(size: nat) | NullDevice

  datatype ManagedTensor = ManagedTensor(name: string, dtype: DType, shape: seq<int>, strides: seq<int>,
      storage: Storage, byteSize: nat)
  {
    /** What the constructor leaves behind. */
    predicate Valid() {
      && shape != [] && Positive(shape) && !dtype.Unsupported? && storage != NullDevice
      && byteSize == Product(shape) * BytesPerElement(dtype).value <= SIZE_MAX
      && strides == Strides(shape, BytesPerElement(dtype).value) && byteSize <= storage.size
    }
  }

  /** The constructor: empty strides mean contiguous ones; other layouts are refused. */
  method MakeTensor(name: string, dtype: DType, shape: seq<int>, storage: Storage, strides: seq<int>)
    returns (r: Result<ManagedTensor>)
    ensures r.Ok? ==>
              && r.value.Valid() && r.value.name == name && r.value.dtype == dtype && r.value.shape == shape
              && r.value.storage == storage
    ensures r.Ok? <==>
            && shape != [] && Positive(shape) && !dtype.Unsupported? && storage != NullDevice
            && Product(shape) * BytesPerElement(dtype).value <= SIZE_MAX
            && (strides == [] || strides == Strides(shape, BytesPerElement(dtype).value))
            && storage.size >= Product(shape) * BytesPerElement(dtype).value
  {
    var contiguous := ContiguousStrides(shape, dtype);
    var size := TensorByteSize(shape, dtype);
    if contiguous.Err? {
      return Err(contiguous.error);
    }
    if strides != [] && strides != contiguous.value {
      return Err(BadStrides);
    }
    if storage == NullDevice {
      return Err(NullStorage);
    }
    if storage.size < size.value {
      return Err(StorageTooSmall);
    }
    r := Ok(ManagedTensor(name, dtype, shape, contiguous.value, storage, size.value));
  }

  datatype PoolResult = Pooled(tensor: ManagedTensor, block: nat) | NoBlock(why: AcquireOutcome)
      | Refused(error: LayoutError)

  /** tensor_from_pool: a tensor that does not fit gives its block back unused. */
  method TensorFromPool(name: string, dtype: DType, shape: seq<int>, pool: FixedDeviceMemoryPool,
      stream: DeviceStream, p: Process)
    returns (r: PoolResult, writer: WriteHandle?)
    requires pool.Valid()
    modifies pool`freeBlocks, pool.ops, p
    ensures pool.Valid()
    ensures writer != null <==> r.Pooled?
    ensures r.Pooled? ==>
              && old(pool.freeBlocks) == pool.freeBlocks + [r.block]
              && r.tensor.Valid() && r.tensor.byteSize <= pool.blockSize && r.tensor.shape == shape
                  && r.tensor.dtype == dtype
              && writer.responsible && writer.state != null && writer.state.phase == Writing
    ensures r.Refused? ==>
              || pool.freeBlocks == old(pool.freeBlocks)
              || (pool.ops.failures != old(pool.ops.failures)
                  && exists i :: old(pool.freeBlocks) == pool.freeBlocks + [i] && i in p.orphaned)
  {
    var got, buffer, w := pool.AcquireFor(stream, p);
    writer := null;
    if buffer == null {
      return NoBlock(got), null;
    }
    label Acquired:
    var tensor := MakeTensor(name, dtype, shape, Device(buffer.size), []);
    if tensor.Ok? {
      return Pooled(tensor.value, got.block), w;
    }
    r := Refused(tensor.error);
    assert buffer.Abs().Events() == [];
    var cancelled := w.Cancel(p);
    assert cancelled == Done;
    assert buffer.Abs().Events() == [];
    var released := pool.DropBuffer(buffer, got.block, p);
    if released {
      pool.GiveBack(got.block);
    }
  }
}
