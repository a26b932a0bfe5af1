/** dicek::math::linalg::vector<DIM, T>: a fixed-dimension vector over a
    scalar type, wrapping std::array<T, DIM>, with element access, map,
    element-wise addition, scaling, and the free functions inner_product
    and norm. */
module LinalgVector {
  import opened Errors
  import opened ScalarTraits
  import opened ElementWise

  /** The lambda passed to map by scale_impl: multiplication by val on the left. */
  function MultiplyBy<T>(ops: ScalarOps<T>, val: T): (f: T -> T)
  {
    x => ops.times(val, x)
  }

  /** The value inner_product accumulates over the first |l| indices:
      starting from the scalar zero, it adds l[i] * conj(r[i]) for
      i = 0, 1, ... in that order. */
  function InnerSum<T>(ops: ScalarOps<T>, l: seq<T>, r: seq<T>): (s: T)
    requires |l| == |r|
    decreases |l|
  {
    if |l| == 0 then ops.zero
    else
      var n := |l| - 1;
      ops.plus(InnerSum(ops, l[..n], r[..n]), ops.times(l[n], ops.conj(r[n])))
  }

  /** The plain dot product of two integer sequences, summed from the front. */
  function Dot(l: seq<int>, r: seq<int>): (s: int)
    requires |l| == |r|
  {
    if l == [] then 0 else l[0] * r[0] + Dot(l[1..], r[1..])
  }

  lemma {:induction false} DotLast(l: seq<int>, r: seq<int>)
    requires |l| == |r| > 0
    ensures Dot(l, r) == Dot(l[..|l| - 1], r[..|r| - 1]) + l[|l| - 1] * r[|r| - 1]
  {
    var n := |l| - 1;
    if n == 0 {
      assert l[1..] == [] && r[1..] == [];
      assert l[..n] == [] && r[..n] == [];
    } else {
      DotLast(l[1..], r[1..]);
      assert l[1..][..n - 1] == l[..n][1..];
      assert r[1..][..n - 1] == r[..n][1..];
    }
  }

  /** For real scalars conj is the identity, so inner_product is the dot product. */
  lemma {:induction false} InnerSumRealIsDot(l: seq<int>, r: seq<int>)
    requires |l| == |r|
    ensures InnerSum(RealOps, l, r) == Dot(l, r)
  {
    if |l| > 0 {
      var n := |l| - 1;
      InnerSumRealIsDot(l[..n], r[..n]);
      DotLast(l, r);
    }
  }

  /** Swapping the arguments of the complex inner product conjugates it. */
  lemma {:induction false} InnerSumConjSymmetric(l: seq<Gaussian>, r: seq<Gaussian>)
    requires |l| == |r|
    ensures ComplexConj(InnerSum(ComplexOps, l, r)) == InnerSum(ComplexOps, r, l)
  {
    if |l| > 0 {
      var n := |l| - 1;
      var s := InnerSum(ComplexOps, l[..n], r[..n]);
      InnerSumConjSymmetric(l[..n], r[..n]);
      var t := ComplexMul(l[n], ComplexConj(r[n]));
      ComplexConjHomomorphism(s, t);
      ComplexConjHomomorphism(l[n], ComplexConj(r[n]));
      ComplexMulCommutes(ComplexConj(l[n]), r[n]);
    }
  }

  /** The complex inner product of a vector with itself is a non-negative real. */
  lemma {:induction false} InnerSumSelfIsNonNegativeReal(v: seq<Gaussian>)
    ensures InnerSum(ComplexOps, v, v).im == 0
    ensures InnerSum(ComplexOps, v, v).re >= 0
  {
    if |v| > 0 {
      var n := |v| - 1;
      InnerSumSelfIsNonNegativeReal(v[..n]);
      ComplexTimesConj(v[n]);
    }
  }

  /** The complex inner product is additive in its left argument: it turns
      add_impl into a sum of inner products. */
  lemma {:induction false} InnerSumAdditive(u: seq<Gaussian>, v: seq<Gaussian>, w: seq<Gaussian>)
    requires |u| == |v| == |w|
    ensures InnerSum(ComplexOps, Zipped(ComplexAdd, u, v), w)
         == ComplexAdd(InnerSum(ComplexOps, u, w), InnerSum(ComplexOps, v, w))
  {
    if |u| > 0 {
      var n := |u| - 1;
      var uv := Zipped(ComplexAdd, u, v);
      ZippedPrefix(ComplexAdd, u, v, n);
      assert uv[..n] == Zipped(ComplexAdd, u[..n], v[..n]);
      assert uv[n] == ComplexAdd(u[n], v[n]);
      InnerSumAdditive(u[..n], v[..n], w[..n]);
      var cw := ComplexConj(w[n]);
      var su, sv := InnerSum(ComplexOps, u[..n], w[..n]), InnerSum(ComplexOps, v[..n], w[..n]);
      assert InnerSum(ComplexOps, uv, w)
          == ComplexAdd(InnerSum(ComplexOps, uv[..n], w[..n]), ComplexMul(uv[n], cw));
      ComplexMulDistributesRight(u[n], v[n], cw);
      ComplexAddShuffle(su, sv, ComplexMul(u[n], cw), ComplexMul(v[n], cw));
    }
  }

  /** The complex inner product is homogeneous in its left argument: it
      turns scale_impl(a) into multiplication by a. */
  lemma {:induction false} InnerSumHomogeneous(a: Gaussian, v: seq<Gaussian>, w: seq<Gaussian>)
    requires |v| == |w|
    ensures InnerSum(ComplexOps, Mapped(MultiplyBy(ComplexOps, a), v), w)
         == ComplexMul(a, InnerSum(ComplexOps, v, w))
  {
    var f := MultiplyBy(ComplexOps, a);
    if |v| == 0 {
      assert a.re * 0 == 0 && a.im * 0 == 0;
    } else {
      var n := |v| - 1;
      MappedPrefix(f, v, n);
      InnerSumHomogeneous(a, v[..n], w[..n]);
      var cw := ComplexConj(w[n]);
      ComplexMulAssociative(a, v[n], cw);
      ComplexMulDistributes(a, InnerSum(ComplexOps, v[..n], w[..n]), ComplexMul(v[n], cw));
    }
  }

  /** The vector: a std::array<T, DIM> of scalars. The scalar type's
      operations stand for the template's scalar_type and scalar_traits. */
  class Vector<T> {
    const DIM: nat
    const ops: ScalarOps<T>
    const elm: array<T>

    ghost predicate Valid()
    {
      elm.Length == DIM
    }

    /** The elements, in index order. */
    ghost function Elements(): (s: seq<T>)
      reads elm
    {
      elm[..]
    }

    /** vector() : m_elm() value-initialises every element to the scalar zero. */
    constructor (dim: nat, ops: ScalarOps<T>)
      ensures Valid() && DIM == dim && this.ops == ops && fresh(elm)
      ensures |Elements()| == dim
      ensures forall i :: 0 <= i < dim ==> elm[i] == ops.zero
    {
      DIM := dim;
      this.ops := ops;
      elm := new T[dim](_ => ops.zero);
    }

    /** at(index), read through a const or a mutable vector: the element, or
        out_of_range when index >= DIM. */
    method At(index: nat) returns (r: Result<T>)
      requires Valid()
      ensures index < DIM ==> r == Ok(elm[index])
      ensures DIM <= index ==> r == Err(OutOfRange)
    {
      if index < elm.Length {
        r := Ok(elm[index]);
      } else {
        r := Err(OutOfRange);
      }
    }

    /** at(index) = x: writes element index, or throws out_of_range and
        changes nothing when index >= DIM. */
    method SetAt(index: nat, x: T) returns (r: Outcome)
      requires Valid()
      modifies elm
      ensures r == if index < DIM then Pass else Fail(OutOfRange)
      ensures Elements() == if index < DIM then old(Elements())[index := x] else old(Elements())
    {
      if index < elm.Length {
        elm[index] := x;
        r := Pass;
      } else {
        r := Fail(OutOfRange);
      }
    }

    /** operator[](index), read: unchecked, so the index must be in range. */
    method Get(index: nat) returns (x: T)
      requires Valid() && index < DIM
      ensures x == elm[index]
    {
      x := elm[index];
    }

    /** operator[](index) = x, unchecked. */
    method Set(index: nat, x: T)
      requires Valid() && index < DIM
      modifies elm
      ensures Elements() == old(Elements())[index := x]
    {
      elm[index] := x;
    }

    /** map(f): a new vector holding f of each element; this vector is unchanged. */
    method Map(f: T -> T) returns (ret: Vector<T>)
      requires Valid()
      ensures fresh(ret) && fresh(ret.elm) && ret.Valid() && ret.DIM == DIM && ret.ops == ops
      ensures ret.Elements() == Mapped(f, Elements())
      ensures Elements() == old(Elements())
    {
      ret := new Vector(DIM, ops);
      for index := 0 to DIM
        invariant fresh(ret.elm) && ret.Valid() && ret.DIM == DIM && ret.ops == ops
        invariant forall k :: 0 <= k < index ==> ret.elm[k] == f(elm[k])
      {
        var x := Get(index);
        ret.Set(index, f(x));
      }
    }

    /** add_impl(rhs): a new vector holding the element-wise sums. */
    method AddImpl(rhs: Vector<T>) returns (ret: Vector<T>)
      requires Valid() && rhs.Valid() && rhs.DIM == DIM
      ensures fresh(ret) && fresh(ret.elm) && ret.Valid() && ret.DIM == DIM && ret.ops == ops
      ensures ret.Elements() == Zipped(ops.plus, Elements(), rhs.Elements())
      ensures Elements() == old(Elements()) && rhs.Elements() == old(rhs.Elements())
    {
      ret := new Vector(DIM, ops);
      for index := 0 to DIM
        invariant fresh(ret.elm) && ret.Valid() && ret.DIM == DIM && ret.ops == ops
        invariant forall k :: 0 <= k < index ==> ret.elm[k] == ops.plus(elm[k], rhs.elm[k])
      {
        var x := Get(index);
        var y := rhs.Get(index);
        ret.Set(index, ops.plus(x, y));
      }
    }

    /** scale_impl(val): map of multiplication by val. */
    method ScaleImpl(val: T) returns (ret: Vector<T>)
      requires Valid()
      ensures fresh(ret) && fresh(ret.elm) && ret.Valid() && ret.DIM == DIM && ret.ops == ops
      ensures ret.Elements() == Mapped(MultiplyBy(ops, val), Elements())
      ensures forall i :: 0 <= i < DIM ==> ret.elm[i] == ops.times(val, elm[i])
      ensures Elements() == old(Elements())
    {
      ret := Map(MultiplyBy(ops, val));
    }
  }

  /** inner_product(lhs, rhs): the sum over all indices of lhs[i] * conj(rhs[i]).
      Both arguments have the same vector type V. */
  method InnerProduct<T>(lhs: Vector<T>, rhs: Vector<T>) returns (ret: T)
    requires lhs.Valid() && rhs.Valid() && lhs.DIM == rhs.DIM && lhs.ops == rhs.ops
    ensures ret == InnerSum(lhs.ops, lhs.Elements(), rhs.Elements())
  {
    var ops := lhs.ops;
    ret := ops.zero;
    for index := 0 to lhs.DIM
      invariant ret == InnerSum(ops, lhs.elm[..index], rhs.elm[..index])
    {
      var x := lhs.Get(index);
      var y := rhs.Get(index);
      assert lhs.elm[..index + 1][..index] == lhs.elm[..index];
      assert rhs.elm[..index + 1][..index] == rhs.elm[..index];
      ret := ops.plus(ret, ops.times(x, ops.conj(y)));
    }
    assert lhs.elm[..lhs.DIM] == lhs.elm[..];
    assert rhs.elm[..rhs.DIM] == rhs.elm[..];
  }

  /** The check norm(v, p) makes before computing anything: range_error
      when p < 1. */
  function NormOrderCheck(p: real): (r: Outcome)
    ensures r == Fail(RangeError) <==> p < 1.0
    ensures r == Pass <==> 1.0 <= p
  {
    if p < 1.0 then Fail(RangeError) else Pass
  }
}
