// Reading the recurrence's inputs where they already lie: which layouts are handed to the kernel as they are, and that
// its pointers then visit exactly the elements a contiguous copy would have given it.
module KdaStrided {

  // The shape of a tensor over some storage; element [i0, i1, ...] lies at the sum of index times stride.
  datatype Layout = Layout(sizes: seq<nat>, strides: seq<nat>)
  {
    ghost predicate Valid() {
      |sizes| == |strides|
    }
  }

  function Product(s: seq<nat>): nat {
    if s == [] then 1 else s[0] * Product(s[1..])
  }

  function Address(strides: seq<nat>, index: seq<nat>): int
    requires |strides| == |index|
  {
    if index == [] then 0 else index[0] * strides[0] + Address(strides[1..], index[1..])
  }

  // The position of an element in row-major order.
  function RowMajor(sizes: seq<nat>, index: seq<nat>): int
    requires |sizes| == |index|
  {
    if index == [] then 0 else index[0] * Product(sizes[1..]) + RowMajor(sizes[1..], index[1..])
  }

  ghost predicate InRange(sizes: seq<nat>, index: seq<nat>) {
    |index| == |sizes| && forall d :: 0 <= d < |sizes| ==> index[d] < sizes[d]
  }

  // The row-major stride of an axis.
  function Inner(sizes: seq<nat>, axis: nat): nat
    requires axis < |sizes|
  {
    Product(sizes[axis + 1..])
  }

  // Axes from `from` on are row-major; axes of size one may have any stride.
  predicate DenseFrom(x: Layout, from: nat)
    requires |x.sizes| == |x.strides|
  {
    forall d :: from <= d < |x.sizes| ==> x.sizes[d] == 1 || x.strides[d] == Inner(x.sizes, d)
  }

  predicate IsContiguous(x: Layout)
    requires |x.sizes| == |x.strides|
  {
    0 in x.sizes || DenseFrom(x, 0)
  }

  function RowMajorStrides(sizes: seq<nat>): (strides: seq<nat>)
    ensures |strides| == |sizes|
  {
    seq(|sizes|, d requires 0 <= d < |sizes| => Inner(sizes, d))
  }

  // The layout that may stay: one batch row, a dense payload per token, and tokens that do not overlap.
  predicate Kept(x: Layout)
    requires |x.sizes| == |x.strides|
  {
    && !IsContiguous(x) && |x.sizes| >= 3 && x.sizes[0] == 1
    && DenseFrom(x, 2) && x.strides[1] >= Product(x.sizes[2..])
  }

  // What the kernel is given: x itself or a contiguous copy of it.
  function Handed(enabled: bool, x: Layout): (y: Layout)
    requires |x.sizes| == |x.strides|
    ensures y.sizes == x.sizes && |y.strides| == |y.sizes|
  {
    if enabled && (Kept(x) || IsContiguous(x)) then x else Layout(x.sizes, RowMajorStrides(x.sizes))
  }

  function TokenStride(x: Layout): nat
    requires |x.sizes| == |x.strides| >= 2
  {
    if IsContiguous(x) then 0 else x.strides[1]
  }

  // The loop that decides whether x may stay.
  method KeepLayout(enabled: bool, x: Layout) returns (inPlace: bool)
    requires x.Valid()
    ensures inPlace <==> enabled && Kept(x)
  {
    if !enabled || IsContiguous(x) || |x.sizes| < 3 || x.sizes[0] != 1 {
      return false;
    }
    var inner := 1;
    var d := |x.sizes| - 1;
    while d > 1
      invariant 1 <= d < |x.sizes|
      invariant inner == Product(x.sizes[d + 1..])
      invariant DenseFrom(x, d + 1)
    {
      if x.sizes[d] != 1 && x.strides[d] != inner {
        return false;
      }
      inner := inner * x.sizes[d];
      assert x.sizes[d..][1..] == x.sizes[d + 1..];
      d := d - 1;
    }
    inPlace := x.strides[1] >= inner;
  }

  // --- The kernel's pointers ---------------------------------------------------------------------------

  // The pointer of the first token, then the same pointer moved on token by token.
  method TokenLoop(stride: nat, heads: nat, width: nat, bos: nat, h: nat, c: nat, count: nat) returns (ps: seq<int>)
    ensures |ps| == count
    ensures forall t :: 0 <= t < count ==> ps[t] == Pointer(stride, heads, width, bos + t, h, c)
  {
    var p := if stride > 0 then bos * stride + h * width + c else (bos * heads + h) * width + c;
    ps := [];
    for t := 0 to count
      invariant |ps| == t
      invariant p == Pointer(stride, heads, width, bos + t, h, c)
      invariant forall i :: 0 <= i < t ==> ps[i] == Pointer(stride, heads, width, bos + i, h, c)
    {
      ps := ps + [p];
      NextPointer(stride, heads, width, bos + t, h, c);
      p := if stride > 0 then p + stride else p + heads * width;
    }
  }

  function Pointer(stride: nat, heads: nat, width: nat, token: nat, h: nat, c: nat): int {
    if stride > 0 then token * stride + h * width + c else (token * heads + h) * width + c
  }

  lemma NextPointer(stride: nat, heads: nat, width: nat, token: nat, h: nat, c: nat)
    ensures Pointer(stride, heads, width, token + 1, h, c)
         == Pointer(stride, heads, width, token, h, c) + if stride > 0 then stride else heads * width
  {
    assert (token + 1) * stride == token * stride + stride;
    assert ((token + 1) * heads + h) * width == (token * heads + h) * width + heads * width;
  }

  // --- Addresses agree -----------------------------------------------------------------------------------

  lemma {:induction false} ProductPositive(s: seq<nat>)
    ensures Product(s) > 0 <==> 0 !in s
  {
    if s != [] {
      ProductPositive(s[1..]);
      assert s == [s[0]] + s[1..];
      assert s[0] > 0 && Product(s[1..]) > 0 ==> s[0] * Product(s[1..]) > 0;
    }
  }

  lemma DenseTail(x: Layout, k: nat)
    requires x.Valid() && k <= |x.sizes| && DenseFrom(x, k)
    ensures DenseFrom(Layout(x.sizes[k..], x.strides[k..]), 0)
  {
    forall d | 0 <= d < |x.sizes| - k ensures Inner(x.sizes[k..], d) == Inner(x.sizes, k + d) {
      assert x.sizes[k..][d + 1..] == x.sizes[k + d + 1..];
    }
  }

  lemma {:induction false} DenseAddress(x: Layout, index: seq<nat>)
    requires x.Valid() && InRange(x.sizes, index) && DenseFrom(x, 0)
    ensures Address(x.strides, index) == RowMajor(x.sizes, index)
    decreases |index|
  {
    if index != [] {
      DenseTail(x, 1);
      DenseAddress(Layout(x.sizes[1..], x.strides[1..]), index[1..]);
      assert x.sizes[0] == 1 ==> index[0] == 0;
    }
  }

  lemma CopyIsDense(sizes: seq<nat>)
    ensures DenseFrom(Layout(sizes, RowMajorStrides(sizes)), 0)
  {
  }

  // One token of a layout with a dense payload.
  lemma PayloadAddress(x: Layout, index: seq<nat>)
    requires x.Valid() && InRange(x.sizes, index) && |index| >= 2 && DenseFrom(x, 2) && x.sizes[0] == 1
    ensures Address(x.strides, index) == index[1] * x.strides[1] + RowMajor(x.sizes[2..], index[2..])
  {
    DenseTail(x, 2);
    DenseAddress(Layout(x.sizes[2..], x.strides[2..]), index[2..]);
    assert index[1..][1..] == index[2..] && x.strides[1..][1..] == x.strides[2..];
    assert index[0] == 0;
    assert Address(x.strides, index) == index[0] * x.strides[0] + Address(x.strides[1..], index[1..]);
  }

  // The stride that marks a dense layout marks nothing else: only contiguous tensors carry it.
  lemma StrideFlagIsUnambiguous(enabled: bool, x: Layout)
    requires x.Valid() && |x.sizes| >= 3
    ensures TokenStride(Handed(enabled, x)) == 0 <==> IsContiguous(Handed(enabled, x))
  {
    var y := Handed(enabled, x);
    CopyIsDense(x.sizes);
    if !IsContiguous(y) {
      assert y == x && Kept(x);
      ProductPositive(x.sizes[2..]);
    }
  }

  // The element [b, t, h, c] of whatever layout was handed over lies where the kernel points for token b * T + t.
  lemma KernelVisitsElement(enabled: bool, x: Layout, index: seq<nat>)
    requires x.Valid() && |x.sizes| == 4 && InRange(x.sizes, index)
    ensures var y := Handed(enabled, x);
      Address(y.strides, index)
      == Pointer(TokenStride(y), x.sizes[2], x.sizes[3], index[0] * x.sizes[1] + index[1], index[2], index[3])
  {
    var y := Handed(enabled, x);
    StrideFlagIsUnambiguous(enabled, x);
    CopyIsDense(x.sizes);
    if IsContiguous(y) {
      assert 0 !in x.sizes by {
        NoEmptyAxis(x.sizes, index);
      }
      DenseAddress(y, index);
      FourAxes(x.sizes, index);
    } else {
      PayloadAddress(y, index);
      TwoAxes(x.sizes[2..], index[2..]);
      assert index[0] * x.sizes[1] == 0;
    }
  }

  // The same for beta with one value per head, [b, t, h].
  lemma KernelVisitsHead(enabled: bool, x: Layout, index: seq<nat>)
    requires x.Valid() && |x.sizes| == 3 && InRange(x.sizes, index)
    ensures var y := Handed(enabled, x);
      Address(y.strides, index)
      == Pointer(TokenStride(y), x.sizes[2], 1, index[0] * x.sizes[1] + index[1], index[2], 0)
  {
    var y := Handed(enabled, x);
    StrideFlagIsUnambiguous(enabled, x);
    CopyIsDense(x.sizes);
    if IsContiguous(y) {
      assert 0 !in x.sizes by {
        NoEmptyAxis(x.sizes, index);
      }
      DenseAddress(y, index);
      ThreeAxes(x.sizes, index);
    } else {
      PayloadAddress(y, index);
      OneAxis(x.sizes[2..], index[2..]);
      assert index[0] * x.sizes[1] == 0;
    }
  }

  lemma NoEmptyAxis(sizes: seq<nat>, index: seq<nat>)
    requires InRange(sizes, index)
    ensures 0 !in sizes
  {
  }

  lemma OneAxis(sizes: seq<nat>, index: seq<nat>)
    requires |sizes| == |index| == 1
    ensures RowMajor(sizes, index) == index[0] && Product(sizes) == sizes[0]
  {
    assert sizes[1..] == [] && index[1..] == [];
  }

  lemma TwoAxes(sizes: seq<nat>, index: seq<nat>)
    requires |sizes| == |index| == 2
    ensures RowMajor(sizes, index) == index[0] * sizes[1] + index[1] && Product(sizes) == sizes[0] * sizes[1]
  {
    OneAxis(sizes[1..], index[1..]);
  }

  lemma ThreeAxes(sizes: seq<nat>, index: seq<nat>)
    requires |sizes| == |index| == 3
    ensures Product(sizes) == sizes[0] * (sizes[1] * sizes[2])
    ensures RowMajor(sizes, index) == (index[0] * sizes[1] + index[1]) * sizes[2] + index[2]
  {
    TwoAxes(sizes[1..], index[1..]);
    assert index[0] * (sizes[1] * sizes[2]) == index[0] * sizes[1] * sizes[2];
  }

  lemma FourAxes(sizes: seq<nat>, index: seq<nat>)
    requires |sizes| == |index| == 4
    ensures RowMajor(sizes, index)
         == ((index[0] * sizes[1] + index[1]) * sizes[2] + index[2]) * sizes[3] + index[3]
  {
    ThreeAxes(sizes[1..], index[1..]);
    Horner(index[0], sizes[1], sizes[2], sizes[3], index[1], index[2]);
  }

  lemma Horner(a: int, b: int, c: int, d: int, t: int, h: int)
    ensures ((a * b + t) * c + h) * d == a * (b * (c * d)) + (t * c + h) * d
  {
    assert (a * b + t) * c == a * b * c + t * c;
    assert a * b * c * d == a * (b * (c * d));
  }

  // --- Nothing else could stay -----------------------------------------------------------------------------

  // The index that is 1 along one axis.
  function Unit(rank: nat, axis: nat): seq<nat> {
    seq(rank, d => if d == axis then 1 else 0)
  }

  lemma {:induction false} ZeroIndex(sizes: seq<nat>, strides: seq<nat>, index: seq<nat>)
    requires |sizes| == |strides| == |index| && forall d :: 0 <= d < |index| ==> index[d] == 0
    ensures Address(strides, index) == 0 == RowMajor(sizes, index)
  {
    if index != [] {
      ZeroIndex(sizes[1..], strides[1..], index[1..]);
    }
  }

  lemma {:induction false} UnitIndex(sizes: seq<nat>, strides: seq<nat>, axis: nat)
    requires |sizes| == |strides| && axis < |sizes|
    ensures Address(strides, Unit(|sizes|, axis)) == strides[axis]
    ensures RowMajor(sizes, Unit(|sizes|, axis)) == Product(sizes[axis + 1..])
    decreases |sizes|
  {
    var unit := Unit(|sizes|, axis);
    if axis == 0 {
      ZeroIndex(sizes[1..], strides[1..], unit[1..]);
    } else {
      assert unit[1..] == Unit(|sizes| - 1, axis - 1);
      UnitIndex(sizes[1..], strides[1..], axis - 1);
      assert sizes[1..][axis..] == sizes[axis + 1..];
    }
  }

  // A payload that is not dense holds an element that pointer arithmetic inside a token misses: in the first token its
  // address is not its row-major offset, so no token stride could make up for it.
  lemma OnlyDensePayloadsStay(x: Layout) returns (index: seq<nat>)
    requires x.Valid() && |x.sizes| >= 3 && 0 !in x.sizes && !DenseFrom(x, 2)
    ensures InRange(x.sizes, index) && index[0] == 0 && index[1] == 0
    ensures Address(x.strides, index) != RowMajor(x.sizes[2..], index[2..])
  {
    var d :| 2 <= d < |x.sizes| && x.sizes[d] != 1 && x.strides[d] != Inner(x.sizes, d);
    index := Unit(|x.sizes|, d);
    UnitInRange(x.sizes, d);
    AxisMissed(x, d);
  }

  lemma UnitInRange(sizes: seq<nat>, d: nat)
    requires d < |sizes| && 0 !in sizes && sizes[d] != 1
    ensures InRange(sizes, Unit(|sizes|, d))
  {
    forall e | 0 <= e < |sizes| ensures Unit(|sizes|, d)[e] < sizes[e] {
      assert sizes[e] in sizes;
    }
  }

  lemma AxisMissed(x: Layout, d: nat)
    requires x.Valid() && 2 <= d < |x.sizes| && x.strides[d] != Inner(x.sizes, d)
    ensures Address(x.strides, Unit(|x.sizes|, d)) != RowMajor(x.sizes[2..], Unit(|x.sizes|, d)[2..])
  {
    hide Address, RowMajor, Product;
    UnitIndex(x.sizes, x.strides, d);
    UnitIndex(x.sizes[2..], x.strides[2..], d - 2);
    assert Unit(|x.sizes|, d)[2..] == Unit(|x.sizes| - 2, d - 2);
    assert x.sizes[2..][d - 1..] == x.sizes[d + 1..];
  }

  // Every element of every token lies at its row-major offset behind the token, and tokens do not overlap.
  ghost predicate TokenByToken(x: Layout)
    requires x.Valid() && |x.sizes| >= 2
  {
    && (forall index :: InRange(x.sizes, index) ==>
          Address(x.strides, index) == index[1] * x.strides[1] + RowMajor(x.sizes[2..], index[2..]))
    && x.strides[1] >= Product(x.sizes[2..])
  }

  // So, with the switch on, a tensor with one batch row stays where it is exactly if it is contiguous or lies token by
  // token; any other is copied.
  lemma StaysExactly(x: Layout)
    requires x.Valid() && |x.sizes| >= 3 && 0 !in x.sizes
    ensures Handed(true, x) == x <==> IsContiguous(x) || (x.sizes[0] == 1 && TokenByToken(x))
    ensures IsContiguous(Handed(false, x))
  {
    CopyIsDense(x.sizes);
    if x.sizes[0] == 1 {
      if DenseFrom(x, 2) {
        forall index | InRange(x.sizes, index)
          ensures Address(x.strides, index) == index[1] * x.strides[1] + RowMajor(x.sizes[2..], index[2..])
        {
          PayloadAddress(x, index);
        }
      } else {
        var index := OnlyDensePayloadsStay(x);
        assert index[1] * x.strides[1] == 0;
      }
    }
  }
}
