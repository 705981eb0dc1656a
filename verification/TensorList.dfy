/**
 tensor_bundle_conversion.cpp: TensorBundle messages to the NVIDIA TensorList layout and back.
 The byte size and stride arithmetic of that file is the arithmetic of TensorLayout.
 */
module TensorList {

  import opened BufferModel
  import Pool
  import opened TensorLayout

  const UINT8_MAX: nat := 0xFF

  const UINT32_MAX: nat := 0xFFFF_FFFF

  datatype Header = Header(stamp: int, frameId: string)

  /** `dataType` is a uint8, the dimensions are int64. */
  datatype BundleTensor = BundleTensor(name: string, dataType: nat, shape: seq<int>, data: seq<bv8>)

  datatype Bundle = Bundle(header: Header, tensors: seq<BundleTensor>)

  /** `dataType` is an int32, the dimensions are uint32. */
  datatype NvidiaTensor = NvidiaTensor(name: string, dataType: int, rank: nat, dims: seq<nat>, strides: seq<int>,
      data: seq<bv8>)

  datatype NvidiaList = NvidiaList(header: Header, tensors: seq<NvidiaTensor>)

  /** The values the message fields can hold. */
  predicate WireTensor(t: NvidiaTensor) {
    forall k :: 0 <= k < |t.dims| ==> t.dims[k] <= UINT32_MAX
  }

  predicate WireList(l: NvidiaList) {
    forall k :: 0 <= k < |l.tensors| ==> WireTensor(l.tensors[k])
  }

  // ---------- Data types

  function BundleDType(code: nat): DType {
    match code
    case 1 => Int8
    case 2 => UInt8
    case 3 => Int16
    case 4 => UInt16
    case 5 => Int32
    case 6 => UInt32
    case 7 => Int64
    case 8 => UInt64
    case 9 => Float32
    case 10 => Float64
    case _ => Unsupported(code)
  }

  function ToBundleDataType(code: int): Option<nat> {
    match code
    case 1 => Some(1)
    case 2 => Some(2)
    case 3 => Some(3)
    case 4 => Some(4)
    case 5 => Some(5)
    case 6 => Some(6)
    case 7 => Some(7)
    case 8 => Some(8)
    case 9 => Some(9)
    case 10 => Some(10)
    case _ => None
  }

  function ToNvidiaDataType(code: nat): Option<int> {
    match code
    case 1 => Some(1)
    case 2 => Some(2)
    case 3 => Some(3)
    case 4 => Some(4)
    case 5 => Some(5)
    case 6 => Some(6)
    case 7 => Some(7)
    case 8 => Some(8)
    case 9 => Some(9)
    case 10 => Some(10)
    case _ => None
  }

  /** The two code tables are inverse, and agree with the element sizes on what exists. */
  lemma CodesRoundTrip(n: int, b: nat)
    ensures ToBundleDataType(n) == Some(b) <==> ToNvidiaDataType(b) == Some(n)
    ensures ToNvidiaDataType(b).Some? <==> !BundleDType(b).Unsupported?
  {}

  // ---------- One tensor

  function ShapeOf(dims: seq<nat>): seq<int> {
    seq(|dims|, k requires 0 <= k < |dims| => dims[k])
  }

  function DimsOf(shape: seq<int>): seq<nat>
    requires Positive(shape)
  {
    seq(|shape|, k requires 0 <= k < |shape| => shape[k])
  }

  /** A shape and dtype whose byte size is the payload's. */
  predicate SizedFor(shape: seq<int>, dataType: nat, payload: nat) {
    && shape != [] && Positive(shape) && !BundleDType(dataType).Unsupported?
    && Product(shape) * BytesPerElement(BundleDType(dataType)).value == payload <= Pool.SIZE_MAX
  }

  /** What ValidateNvidiaTensor lets through. */
  predicate AcceptedNvidia(t: NvidiaTensor) {
    && t.rank == |t.dims|
    && ToBundleDataType(t.dataType).Some?
    && var code := ToBundleDataType(t.dataType).value;
    && SizedFor(ShapeOf(t.dims), code, |t.data|)
    && (t.strides == [] || t.strides == Strides(ShapeOf(t.dims), BytesPerElement(BundleDType(code)).value))
  }

  /** What ToNvidiaTensorList lets through. */
  predicate AcceptedBundle(b: BundleTensor) {
    && SizedFor(b.shape, b.dataType, |b.data|)
    && |b.shape| <= UINT8_MAX && forall k :: 0 <= k < |b.shape| ==> b.shape[k] <= UINT32_MAX
  }

  function BundleOf(t: NvidiaTensor): BundleTensor
    requires AcceptedNvidia(t)
  {
    BundleTensor(t.name, ToBundleDataType(t.dataType).value, ShapeOf(t.dims), t.data)
  }

  function NvidiaOf(b: BundleTensor): NvidiaTensor
    requires AcceptedBundle(b)
  {
    NvidiaTensor(b.name, ToNvidiaDataType(b.dataType).value, |b.shape|, DimsOf(b.shape),
                 Strides(b.shape, BytesPerElement(BundleDType(b.dataType)).value), b.data)
  }

  method ReadShape(t: NvidiaTensor) returns (r: Option<seq<int>>)
    ensures r == if t.rank == |t.dims| && Positive(ShapeOf(t.dims)) then Some(ShapeOf(t.dims)) else None
  {
    if t.rank != |t.dims| {
      return None;
    }
    var shape: seq<int> := [];
    for k := 0 to |t.dims|
      invariant shape == ShapeOf(t.dims)[..k] && Positive(shape)
    {
      if t.dims[k] == 0 {
        assert ShapeOf(t.dims)[k] == 0;
        return None;
      }
      shape := shape + [t.dims[k]];
    }
    assert ShapeOf(t.dims)[..|t.dims|] == ShapeOf(t.dims);
    r := Some(shape);
  }

  method ConvertNvidia(t: NvidiaTensor) returns (r: Option<BundleTensor>)
    ensures r.Some? <==> AcceptedNvidia(t)
    ensures r.Some? ==> r.value == BundleOf(t)
  {
    var shape := ReadShape(t);
    var code := ToBundleDataType(t.dataType);
    if shape.None? || code.None? {
      return None;
    }
    CodesRoundTrip(t.dataType, code.value);
    var size := TensorByteSize(shape.value, BundleDType(code.value));
    if size.Err? || |t.data| != size.value {
      return None;
    }
    var strides := ContiguousStrides(shape.value, BundleDType(code.value));
    if t.strides != [] && t.strides != strides.value {
      return None;
    }
    r := Some(BundleTensor(t.name, code.value, shape.value, t.data));
  }

  method ConvertBundle(b: BundleTensor) returns (r: Option<NvidiaTensor>)
    ensures r.Some? <==> AcceptedBundle(b)
    ensures r.Some? ==> r.value == NvidiaOf(b)
  {
    CodesRoundTrip(0, b.dataType);
    var size := TensorByteSize(b.shape, BundleDType(b.dataType));
    if size.Err? || |b.data| != size.value || |b.shape| > UINT8_MAX {
      return None;
    }
    var dims: seq<nat> := [];
    for k := 0 to |b.shape|
      invariant dims == DimsOf(b.shape)[..k]
      invariant forall j :: 0 <= j < k ==> b.shape[j] <= UINT32_MAX
    {
      if b.shape[k] <= 0 || b.shape[k] > UINT32_MAX {
        return None;
      }
      dims := dims + [b.shape[k]];
    }
    var code := ToNvidiaDataType(b.dataType);
    var strides := ContiguousStrides(b.shape, BundleDType(b.dataType));
    r := Some(NvidiaTensor(b.name, code.value, |dims|, dims, strides.value, b.data));
  }

  // ---------- Whole messages

  predicate AcceptedList(l: NvidiaList) {
    forall k :: 0 <= k < |l.tensors| ==> AcceptedNvidia(l.tensors[k])
  }

  predicate AcceptedTensors(b: Bundle) {
    forall k :: 0 <= k < |b.tensors| ==> AcceptedBundle(b.tensors[k])
  }

  function BundleOfList(l: NvidiaList): Bundle
    requires AcceptedList(l)
  {
    Bundle(l.header, seq(|l.tensors|, k requires 0 <= k < |l.tensors| => BundleOf(l.tensors[k])))
  }

  function ListOfBundle(b: Bundle): NvidiaList
    requires AcceptedTensors(b)
  {
    NvidiaList(b.header, seq(|b.tensors|, k requires 0 <= k < |b.tensors| => NvidiaOf(b.tensors[k])))
  }

  method ToTensorBundle(source: NvidiaList) returns (r: Option<Bundle>)
    ensures r.Some? <==> AcceptedList(source)
    ensures r.Some? ==> r.value == BundleOfList(source)
  {
    var tensors: seq<BundleTensor> := [];
    for k := 0 to |source.tensors|
      invariant |tensors| == k
      invariant forall j :: 0 <= j < k ==>
                    AcceptedNvidia(source.tensors[j]) && tensors[j] == BundleOf(source.tensors[j])
    {
      var t := ConvertNvidia(source.tensors[k]);
      if t.None? {
        return None;
      }
      tensors := tensors + [t.value];
    }
    r := Some(Bundle(source.header, tensors));
  }

  method ToNvidiaTensorList(source: Bundle) returns (r: Option<NvidiaList>)
    ensures r.Some? <==> AcceptedTensors(source)
    ensures r.Some? ==> r.value == ListOfBundle(source)
  {
    var tensors: seq<NvidiaTensor> := [];
    for k := 0 to |source.tensors|
      invariant |tensors| == k
      invariant forall j :: 0 <= j < k ==>
                    AcceptedBundle(source.tensors[j]) && tensors[j] == NvidiaOf(source.tensors[j])
    {
      var t := ConvertBundle(source.tensors[k]);
      if t.None? {
        return None;
      }
      tensors := tensors + [t.value];
    }
    r := Some(NvidiaList(source.header, tensors));
  }

  // ---------- Round trips

  lemma ShapeThereAndBack(shape: seq<int>)
    requires Positive(shape)
    ensures ShapeOf(DimsOf(shape)) == shape
  {}

  lemma TensorThereAndBack(b: BundleTensor)
    requires AcceptedBundle(b)
    ensures AcceptedNvidia(NvidiaOf(b)) && BundleOf(NvidiaOf(b)) == b && WireTensor(NvidiaOf(b))
  {
    ShapeThereAndBack(b.shape);
    CodesRoundTrip(b.dataType, b.dataType);
  }

  /** Every bundle that converts comes back unchanged. */
  lemma BundleRoundTrip(b: Bundle)
    requires AcceptedTensors(b)
    ensures AcceptedList(ListOfBundle(b)) && BundleOfList(ListOfBundle(b)) == b && WireList(ListOfBundle(b))
  {
    forall k | 0 <= k < |b.tensors|
      ensures AcceptedNvidia(NvidiaOf(b.tensors[k])) && BundleOf(NvidiaOf(b.tensors[k])) == b.tensors[k]
      ensures WireTensor(NvidiaOf(b.tensors[k]))
    {
      TensorThereAndBack(b.tensors[k]);
    }
  }

  /** The same tensor with its strides written out. */
  function WithStrides(t: NvidiaTensor): NvidiaTensor
    requires AcceptedNvidia(t)
  {
    t.(strides := Strides(ShapeOf(t.dims), BytesPerElement(BundleDType(ToBundleDataType(t.dataType).value)).value))
  }

  lemma NvidiaThereAndBack(t: NvidiaTensor)
    requires AcceptedNvidia(t) && WireTensor(t)
    ensures AcceptedBundle(BundleOf(t)) <==> |t.dims| <= UINT8_MAX
    ensures |t.dims| <= UINT8_MAX ==>
              NvidiaOf(BundleOf(t)) == WithStrides(t) && (t.strides != [] ==> WithStrides(t) == t)
  {
    CodesRoundTrip(t.dataType, ToBundleDataType(t.dataType).value);
    if |t.dims| <= UINT8_MAX {
      assert DimsOf(ShapeOf(t.dims)) == t.dims;
    }
  }

  /** Every list that converts comes back with its empty strides filled in and nothing else
      changed, exactly when no rank exceeds what the list's rank field can say. */
  lemma ListRoundTrip(l: NvidiaList)
    requires AcceptedList(l) && WireList(l)
    ensures AcceptedTensors(BundleOfList(l)) <==> forall k :: 0 <= k < |l.tensors| ==> |l.tensors[k].dims| <= UINT8_MAX
    ensures AcceptedTensors(BundleOfList(l)) ==>
              ListOfBundle(BundleOfList(l)) ==
              NvidiaList(l.header, seq(|l.tensors|, k requires 0 <= k < |l.tensors| => WithStrides(l.tensors[k])))
  {
    var b := BundleOfList(l);
    forall k | 0 <= k < |l.tensors|
      ensures b.tensors[k] == BundleOf(l.tensors[k])
      ensures AcceptedBundle(b.tensors[k]) <==> |l.tensors[k].dims| <= UINT8_MAX
      ensures AcceptedBundle(b.tensors[k]) ==> NvidiaOf(b.tensors[k]) == WithStrides(l.tensors[k])
    {
      NvidiaThereAndBack(l.tensors[k]);
    }
    if AcceptedTensors(b) {
      assert forall k :: 0 <= k < |l.tensors| ==> AcceptedBundle(b.tensors[k]);
    }
  }

  /** Two lists that differ in anything but omitted strides become different bundles. */
  lemma ConversionLosesOnlyStrides(t: NvidiaTensor, u: NvidiaTensor)
    requires AcceptedNvidia(t) && AcceptedNvidia(u) && BundleOf(t) == BundleOf(u)
    ensures WithStrides(t) == WithStrides(u)
  {
    assert |t.dims| == |ShapeOf(t.dims)| == |u.dims|;
    forall k | 0 <= k < |t.dims|
      ensures t.dims[k] == u.dims[k]
    {
      assert ShapeOf(t.dims)[k] == ShapeOf(u.dims)[k];
    }
    CodesRoundTrip(t.dataType, ToBundleDataType(t.dataType).value);
    CodesRoundTrip(u.dataType, ToBundleDataType(t.dataType).value);
  }
}
