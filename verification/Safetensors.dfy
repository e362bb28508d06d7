/** The safetensors header check: shapes agree with byte ranges, and the ranges tile the payload. */
module Safetensors {
  import opened Wrappers

  const HEADER_LIMIT: nat := 16 * 1024 * 1024

  datatype Tensor = Tensor(dtype: string, shape: seq<int>, offsets: seq<int>)

  datatype Range = Range(start: nat, stop: nat)

  /** Bytes per element of the known element types. */
  function Width(dtype: string): (r: Option<nat>)
    ensures r.Some? ==> r.value >= 1
  {
    if dtype in {"BOOL", "U8", "I8", "F8_E4M3FN", "F8_E5M2", "F8_E4M3FNUZ", "F8_E5M2FNUZ"} then Some(1)
    else if dtype in {"U16", "I16", "F16", "BF16"} then Some(2)
    else if dtype in {"U32", "I32", "F32"} then Some(4)
    else if dtype in {"U64", "I64", "F64"} then Some(8)
    else None
  }

  function Product(shape: seq<int>): int {
    if shape == [] then 1 else Product(shape[..|shape| - 1]) * shape[|shape| - 1]
  }

  predicate Bounded(t: Tensor, remaining: nat) {
    (forall i :: 0 <= i < |t.shape| ==> t.shape[i] >= 0) && |t.offsets| == 2 && 0 <= t.offsets[0] <= t.offsets[1] <= remaining
  }

  /** Every leading part of the shape fits the payload. */
  ghost predicate LeadingFits(shape: seq<int>, width: nat, remaining: nat) {
    forall k :: 1 <= k <= |shape| ==> Product(shape[..k]) * width <= remaining
  }

  ghost predicate TensorOk(t: Tensor, remaining: nat) {
    && Bounded(t, remaining) && Width(t.dtype).Some? && |t.shape| <= 32
    && LeadingFits(t.shape, Width(t.dtype).value, remaining)
    && t.offsets[1] - t.offsets[0] == Product(t.shape) * Width(t.dtype).value
  }

  function RangeOf(t: Tensor): Range {
    if |t.offsets| == 2 && 0 <= t.offsets[0] && 0 <= t.offsets[1] then Range(t.offsets[0], t.offsets[1]) else Range(0, 0)
  }

  function Ranges(tensors: seq<Tensor>): seq<Range> {
    seq(|tensors|, i requires 0 <= i < |tensors| => RangeOf(tensors[i]))
  }

  predicate Covers(r: Range, byte: nat) {
    r.start <= byte < r.stop
  }

  /** How many of the ranges hold a byte. */
  function CoverCount(ranges: seq<Range>, byte: nat): nat {
    if ranges == [] then 0 else (if Covers(ranges[0], byte) then 1 else 0) + CoverCount(ranges[1..], byte)
  }

  /** Every payload byte lies in exactly one range, and no range, not even an empty one, begins strictly
      inside another. */
  ghost predicate Tiles(ranges: seq<Range>, remaining: nat) {
    (forall byte: nat :: byte < remaining ==> CoverCount(ranges, byte) == 1) && NoneInside(ranges)
  }

  ghost predicate NoneInside(ranges: seq<Range>) {
    forall a, b :: a in ranges && b in ranges ==> !(a.start < b.start < a.stop)
  }

  ghost predicate Within(ranges: seq<Range>, remaining: nat) {
    forall r :: r in ranges ==> r.start <= r.stop <= remaining
  }

  predicate Before(a: Range, b: Range) {
    a.start < b.start || (a.start == b.start && a.stop <= b.stop)
  }

  function Insert(sorted: seq<Range>, r: Range): seq<Range> {
    if sorted == [] || Before(r, sorted[0]) then [r] + sorted else [sorted[0]] + Insert(sorted[1..], r)
  }

  function Sort(ranges: seq<Range>): seq<Range> {
    if ranges == [] then [] else Insert(Sort(ranges[1..]), ranges[0])
  }

  ghost predicate Sorted(ranges: seq<Range>) {
    ranges != [] ==> Sorted(ranges[1..]) && forall r :: r in ranges ==> Before(ranges[0], r)
  }

  lemma {:induction false} InsertSorts(sorted: seq<Range>, r: Range)
    requires Sorted(sorted)
    ensures Sorted(Insert(sorted, r)) && forall x :: x in Insert(sorted, r) <==> x in sorted || x == r
  {
    if sorted != [] && !Before(r, sorted[0]) {
      InsertSorts(sorted[1..], r);
      assert Insert(sorted, r)[1..] == Insert(sorted[1..], r);
    } else {
      assert ([r] + sorted)[1..] == sorted;
    }
  }

  lemma {:induction false} InsertCounts(sorted: seq<Range>, r: Range, byte: nat)
    ensures CoverCount(Insert(sorted, r), byte) == CoverCount([r] + sorted, byte)
  {
    assert ([r] + sorted)[1..] == sorted;
    if sorted != [] && !Before(r, sorted[0]) {
      InsertCounts(sorted[1..], r, byte);
      assert Insert(sorted, r)[1..] == Insert(sorted[1..], r);
      assert ([r] + sorted[1..])[1..] == sorted[1..];
    }
  }

  lemma {:induction false} SortSorts(ranges: seq<Range>)
    ensures Sorted(Sort(ranges)) && forall r :: r in Sort(ranges) <==> r in ranges
  {
    if ranges != [] {
      SortSorts(ranges[1..]);
      InsertSorts(Sort(ranges[1..]), ranges[0]);
    }
  }

  lemma {:induction false} SortCounts(ranges: seq<Range>, byte: nat)
    ensures CoverCount(Sort(ranges), byte) == CoverCount(ranges, byte)
  {
    if ranges != [] {
      SortCounts(ranges[1..], byte);
      InsertCounts(Sort(ranges[1..]), ranges[0], byte);
      assert ([ranges[0]] + Sort(ranges[1..]))[1..] == Sort(ranges[1..]);
    }
  }

  /** Each range begins where the one before ends. */
  predicate Chain(ranges: seq<Range>, from: nat, remaining: nat) {
    if ranges == [] then from == remaining
    else ranges[0].start == from && Chain(ranges[1..], ranges[0].stop, remaining)
  }

  lemma {:induction false} ChainStarts(ranges: seq<Range>, from: nat, remaining: nat)
    requires Chain(ranges, from, remaining) && Within(ranges, remaining)
    ensures from <= remaining && forall r :: r in ranges ==> from <= r.start
  {
    if ranges != [] {
      ChainStarts(ranges[1..], ranges[0].stop, remaining);
    }
  }

  lemma {:induction false} ChainCounts(ranges: seq<Range>, from: nat, remaining: nat, byte: nat)
    requires Chain(ranges, from, remaining) && Within(ranges, remaining) && byte < remaining
    ensures CoverCount(ranges, byte) == if from <= byte then 1 else 0
  {
    if ranges != [] {
      ChainCounts(ranges[1..], ranges[0].stop, remaining, byte);
    }
  }

  lemma {:induction false} ChainNoneInside(ranges: seq<Range>, from: nat, remaining: nat)
    requires Chain(ranges, from, remaining) && Within(ranges, remaining)
    ensures NoneInside(ranges)
  {
    if ranges != [] {
      ChainNoneInside(ranges[1..], ranges[0].stop, remaining);
      ChainStarts(ranges[1..], ranges[0].stop, remaining);
      assert forall r :: r in ranges ==> r == ranges[0] || r in ranges[1..];
    }
  }

  lemma {:induction false} Uncovered(ranges: seq<Range>, byte: nat)
    requires forall r :: r in ranges ==> byte < r.start
    ensures CoverCount(ranges, byte) == 0
  {
    if ranges != [] { Uncovered(ranges[1..], byte); }
  }

  lemma {:induction false} Covered(ranges: seq<Range>, r: Range, byte: nat)
    requires r in ranges && Covers(r, byte)
    ensures CoverCount(ranges, byte) >= 1
  {
    if r != ranges[0] { Covered(ranges[1..], r, byte); }
  }

  /** Sorted ranges that hold every byte once, none beginning inside another, follow on each other. */
  lemma {:induction false} TilesChain(ranges: seq<Range>, from: nat, remaining: nat)
    requires Sorted(ranges) && Within(ranges, remaining) && NoneInside(ranges) && from <= remaining
    requires forall r :: r in ranges ==> from <= r.start
    requires forall byte: nat :: from <= byte < remaining ==> CoverCount(ranges, byte) == 1
    ensures Chain(ranges, from, remaining)
  {
    if ranges == [] {
      assert from < remaining ==> CoverCount(ranges, from) == 0;
    } else {
      var first, rest := ranges[0], ranges[1..];
      if from < first.start {
        Uncovered(ranges, from);
      }
      assert first.start == from;
      assert from < first.stop ==> CoverCount(ranges, from) == 1;
      forall r | r in rest ensures first.stop <= r.start {
        assert r in ranges && Before(first, r);
        if first.start == r.start && r.start < first.stop {
          Covered(rest, r, from);
        }
      }
      forall byte: nat | first.stop <= byte < remaining ensures CoverCount(rest, byte) == 1 {
        assert CoverCount(ranges, byte) == 1;
      }
      TilesChain(rest, first.stop, remaining);
    }
  }

  /** Sorting and walking decides tiling exactly. */
  lemma SortedChainIffTiles(ranges: seq<Range>, remaining: nat)
    requires Within(ranges, remaining)
    ensures Chain(Sort(ranges), 0, remaining) <==> Tiles(ranges, remaining)
  {
    SortSorts(ranges);
    forall byte: nat ensures CoverCount(Sort(ranges), byte) == CoverCount(ranges, byte) {
      SortCounts(ranges, byte);
    }
    if Chain(Sort(ranges), 0, remaining) {
      ChainNoneInside(Sort(ranges), 0, remaining);
      forall byte: nat | byte < remaining ensures CoverCount(ranges, byte) == 1 {
        ChainCounts(Sort(ranges), 0, remaining, byte);
      }
    }
    if Tiles(ranges, remaining) {
      TilesChain(Sort(ranges), 0, remaining);
    }
  }

  method CheckTensor(t: Tensor, remaining: nat) returns (ok: bool)
    ensures ok <==> TensorOk(t, remaining)
  {
    if !Bounded(t, remaining) { return false; }
    var width := Width(t.dtype);
    if width.None? || |t.shape| > 32 { return false; }
    var count := 1;
    for i := 0 to |t.shape|
      invariant count == Product(t.shape[..i])
      invariant forall k :: 1 <= k <= i ==> Product(t.shape[..k]) * width.value <= remaining
    {
      count := count * t.shape[i];
      assert t.shape[..i + 1][..i] == t.shape[..i];
      if count * width.value > remaining { return false; }
    }
    assert t.shape[..|t.shape|] == t.shape;
    ok := t.offsets[1] - t.offsets[0] == count * width.value;
  }

  method CheckTiling(occupied: seq<Range>, remaining: nat) returns (ok: bool)
    requires Within(occupied, remaining)
    ensures ok <==> Tiles(occupied, remaining)
  {
    SortedChainIffTiles(occupied, remaining);
    var sorted := Sort(occupied);
    var end := 0;
    for i := 0 to |sorted|
      invariant Chain(sorted, 0, remaining) <==> Chain(sorted[i..], end, remaining)
    {
      assert sorted[i..][0] == sorted[i] && sorted[i..][1..] == sorted[i + 1..];
      if sorted[i].start != end { return false; }
      end := sorted[i].stop;
    }
    ok := end == remaining;
  }

  /** Accepted exactly when there are tensors, each is right by itself, and their ranges tile the payload. */
  method CheckFile(fileSize: nat, headerLength: nat, tensors: seq<Tensor>) returns (ok: bool)
    ensures ok <==>
            && 2 <= headerLength <= HEADER_LIMIT && headerLength + 8 < fileSize && tensors != []
            && (forall i :: 0 <= i < |tensors| ==> TensorOk(tensors[i], fileSize - headerLength - 8))
            && Tiles(Ranges(tensors), fileSize - headerLength - 8)
  {
    if !(2 <= headerLength <= HEADER_LIMIT) || headerLength + 8 >= fileSize { return false; }
    if tensors == [] { return false; }
    var remaining := fileSize - headerLength - 8;
    var occupied: seq<Range> := [];
    for i := 0 to |tensors|
      invariant forall k :: 0 <= k < i ==> TensorOk(tensors[k], remaining)
      invariant |occupied| == i && forall k :: 0 <= k < i ==> occupied[k] == RangeOf(tensors[k])
      invariant Within(occupied, remaining)
    {
      var fine := CheckTensor(tensors[i], remaining);
      if !fine { return false; }
      occupied := occupied + [RangeOf(tensors[i])];
    }
    assert occupied == Ranges(tensors);
    ok := CheckTiling(occupied, remaining);
  }

  lemma {:induction false} LeadingBelow(shape: seq<int>, k: nat)
    requires k <= |shape| && forall i :: 0 <= i < |shape| ==> shape[i] >= 1
    ensures 1 <= Product(shape[..k]) <= Product(shape)
    decreases |shape|
  {
    if k < |shape| {
      var n := |shape| - 1;
      LeadingBelow(shape[..n], k);
      assert shape[..n][..k] == shape[..k];
      Scaled(Product(shape[..k]), Product(shape[..n]), shape[n]);
    } else {
      assert shape[..k] == shape;
      if shape != [] {
        LeadingBelow(shape[..|shape| - 1], |shape| - 1);
        assert shape[..|shape| - 1][..|shape| - 1] == shape[..|shape| - 1];
        Scaled(1, Product(shape[..|shape| - 1]), shape[|shape| - 1]);
      }
    }
  }

  lemma Scaled(a: int, b: int, c: int)
    requires 0 <= a <= b && 1 <= c
    ensures a <= b * c
  {
  }

  /** Without a zero dimension the check of the leading parts adds nothing: the shape only has to give
      the length. */
  lemma ShapeDecides(t: Tensor, remaining: nat)
    requires forall i :: 0 <= i < |t.shape| ==> t.shape[i] >= 1
    ensures TensorOk(t, remaining) <==>
            && Bounded(t, remaining) && Width(t.dtype).Some? && |t.shape| <= 32
            && t.offsets[1] - t.offsets[0] == Product(t.shape) * Width(t.dtype).value
  {
    if Bounded(t, remaining) && Width(t.dtype).Some? && t.offsets[1] - t.offsets[0] == Product(t.shape) * Width(t.dtype).value {
      forall k | 1 <= k <= |t.shape| ensures Product(t.shape[..k]) * Width(t.dtype).value <= remaining {
        LeadingBelow(t.shape, k);
      }
    }
  }

  lemma {:induction false} ProductAfterZero(shape: seq<int>, z: nat)
    requires z < |shape| && shape[z] == 0
    ensures Product(shape) == 0
  {
    var n := |shape| - 1;
    if z < n { ProductAfterZero(shape[..n], z); }
  }

  /** With a zero dimension the tensor is empty, and what remains of the check concerns the dimensions
      before the first zero. */
  lemma ZeroDecides(t: Tensor, remaining: nat, z: nat)
    requires z < |t.shape| && t.shape[z] == 0 && forall i :: 0 <= i < z ==> t.shape[i] >= 1
    ensures TensorOk(t, remaining) <==>
            && Bounded(t, remaining) && Width(t.dtype).Some? && |t.shape| <= 32 && t.offsets[0] == t.offsets[1]
            && (z > 0 ==> Product(t.shape[..z]) * Width(t.dtype).value <= remaining)
  {
    ProductAfterZero(t.shape, z);
    var lead := t.shape[..z];
    forall k | 1 <= k <= |t.shape|
      ensures if k <= z then Product(t.shape[..k]) <= Product(lead) else Product(t.shape[..k]) == 0
    {
      if k <= z {
        LeadingBelow(lead, k);
        assert lead[..k] == t.shape[..k];
      } else {
        ProductAfterZero(t.shape[..k], z);
      }
    }
    if z > 0 && Width(t.dtype).Some? && Product(lead) * Width(t.dtype).value <= remaining {
      forall k | 1 <= k <= |t.shape| ensures Product(t.shape[..k]) * Width(t.dtype).value <= remaining {
        if k <= z { Raised(Product(t.shape[..k]), Product(lead), Width(t.dtype).value); }
      }
    }
  }

  lemma Raised(a: int, b: int, c: nat)
    requires a <= b
    ensures a * c <= b * c
  {
  }

  /** With one it is not only the product that counts: the same dimensions in another order are refused. */
  lemma ZeroDimensionOrder()
    ensures TensorOk(Tensor("U8", [0, 2], [0, 0]), 1)
    ensures !TensorOk(Tensor("U8", [2, 0], [0, 0]), 1)
    ensures Product([0, 2]) == Product([2, 0])
  {
    var a, b := [0, 2], [2, 0];
    assert a[..1] == [0] && a[..2] == a && b[..1] == [2] && b[..2] == b;
    assert Product([0]) == 0 && Product([2]) == 2;
    forall k | 1 <= k <= |a| ensures Product(a[..k]) * 1 <= 1 {
      assert k == 1 || k == 2;
    }
  }

  /** The element types that are known, by their width. */
  lemma WidthsAre(dtype: string)
    ensures Width(dtype) == Some(1) <==>
            dtype == "BOOL" || dtype == "U8" || dtype == "I8" || dtype == "F8_E4M3FN" || dtype == "F8_E5M2"
            || dtype == "F8_E4M3FNUZ" || dtype == "F8_E5M2FNUZ"
    ensures Width(dtype) == Some(2) <==> dtype == "U16" || dtype == "I16" || dtype == "F16" || dtype == "BF16"
    ensures Width(dtype) == Some(4) <==> dtype == "U32" || dtype == "I32" || dtype == "F32"
    ensures Width(dtype) == Some(8) <==> dtype == "U64" || dtype == "I64" || dtype == "F64"
    ensures Width(dtype).Some? ==> Width(dtype).value in {1, 2, 4, 8}
  {
  }

  function Length(r: Range): nat {
    if r.start <= r.stop then r.stop - r.start else 0
  }

  function TotalLength(ranges: seq<Range>): nat {
    if ranges == [] then 0 else Length(ranges[0]) + TotalLength(ranges[1..])
  }

  lemma {:induction false} InsertTotal(sorted: seq<Range>, r: Range)
    ensures TotalLength(Insert(sorted, r)) == Length(r) + TotalLength(sorted)
  {
    if sorted != [] && !Before(r, sorted[0]) {
      InsertTotal(sorted[1..], r);
      assert Insert(sorted, r)[1..] == Insert(sorted[1..], r);
    } else {
      assert ([r] + sorted)[1..] == sorted;
    }
  }

  lemma {:induction false} SortTotal(ranges: seq<Range>)
    ensures TotalLength(Sort(ranges)) == TotalLength(ranges)
  {
    if ranges != [] {
      SortTotal(ranges[1..]);
      InsertTotal(Sort(ranges[1..]), ranges[0]);
    }
  }

  lemma {:induction false} ChainTotal(ranges: seq<Range>, from: nat, remaining: nat)
    requires Chain(ranges, from, remaining) && Within(ranges, remaining)
    ensures from + TotalLength(ranges) == remaining
  {
    if ranges != [] { ChainTotal(ranges[1..], ranges[0].stop, remaining); }
  }

  /** The sum over all tensors of width times shape. */
  function TotalSize(tensors: seq<Tensor>): int {
    if tensors == [] then 0
    else (if Width(tensors[0].dtype).Some? then Width(tensors[0].dtype).value else 0) * Product(tensors[0].shape) + TotalSize(tensors[1..])
  }

  lemma {:induction false} SizesAreLengths(tensors: seq<Tensor>, remaining: nat)
    requires forall i :: 0 <= i < |tensors| ==> TensorOk(tensors[i], remaining)
    ensures TotalSize(tensors) == TotalLength(Ranges(tensors))
  {
    if tensors != [] {
      SizesAreLengths(tensors[1..], remaining);
      assert Ranges(tensors)[1..] == Ranges(tensors[1..]);
      assert TensorOk(tensors[0], remaining);
    }
  }

  /** Conservation: in an accepted file the tensors' sizes add up to the payload. */
  lemma SizesFillThePayload(tensors: seq<Tensor>, remaining: nat)
    requires forall i :: 0 <= i < |tensors| ==> TensorOk(tensors[i], remaining)
    requires Tiles(Ranges(tensors), remaining)
    ensures TotalSize(tensors) == remaining
  {
    var ranges := Ranges(tensors);
    forall r | r in ranges ensures r.start <= r.stop <= remaining {
      var i :| 0 <= i < |ranges| && ranges[i] == r;
      assert TensorOk(tensors[i], remaining);
    }
    SortedChainIffTiles(ranges, remaining);
    SortSorts(ranges);
    ChainTotal(Sort(ranges), 0, remaining);
    SortTotal(ranges);
    SizesAreLengths(tensors, remaining);
  }

  lemma {:induction false} OnesMultiply(shape: seq<int>)
    requires forall i :: 0 <= i < |shape| ==> shape[i] == 1
    ensures Product(shape) == 1
  {
    if shape != [] { OnesMultiply(shape[..|shape| - 1]); }
  }

  /** The limits: 16 MiB of header, and 32 dimensions, which the thirty-third of them exceeds. */
  lemma LimitsAre(n: nat)
    ensures HEADER_LIMIT == 16777216
    ensures TensorOk(Tensor("U8", seq(n, _ => 1), [0, 1]), 1) <==> n <= 32
  {
    var ones := seq(n, _ => 1);
    OnesMultiply(ones);
    forall k | 1 <= k <= n ensures Product(ones[..k]) * 1 <= 1 {
      OnesMultiply(ones[..k]);
    }
  }
}
