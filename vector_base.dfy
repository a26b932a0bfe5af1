/** dicek::math::vector_base<derived, T>: the CRTP base through which the
    linalg vector's public operator+ and scale are reached. Both are const
    and forward to the derived class's implementation. */
module VectorBase {
  import opened ScalarTraits
  import opened ElementWise
  import opened LinalgVector

  /** operator+(rhs) const: the derived class's add_impl(rhs). */
  method Plus<T>(v: Vector<T>, rhs: Vector<T>) returns (ret: Vector<T>)
    requires v.Valid() && rhs.Valid() && rhs.DIM == v.DIM
    ensures fresh(ret) && fresh(ret.elm) && ret.Valid() && ret.DIM == v.DIM && ret.ops == v.ops
    ensures ret.Elements() == Zipped(v.ops.plus, v.Elements(), rhs.Elements())
    ensures v.Elements() == old(v.Elements()) && rhs.Elements() == old(rhs.Elements())
  {
    ret := v.AddImpl(rhs);
  }

  /** scale(val) const: the derived class's scale_impl(val). The scalar
      taken is the vector's own scalar type. */
  method Scale<T>(v: Vector<T>, val: T) returns (ret: Vector<T>)
    requires v.Valid()
    ensures fresh(ret) && fresh(ret.elm) && ret.Valid() && ret.DIM == v.DIM && ret.ops == v.ops
    ensures ret.Elements() == Mapped(MultiplyBy(v.ops, val), v.Elements())
    ensures forall i :: 0 <= i < v.DIM ==> ret.elm[i] == v.ops.times(val, v.elm[i])
    ensures v.Elements() == old(v.Elements())
  {
    ret := v.ScaleImpl(val);
  }

  /** Two vectors of complex scalars added in either order give the same sum. */
  lemma ComplexPlusCommutes(s: seq<Gaussian>, t: seq<Gaussian>)
    requires |s| == |t|
    ensures Zipped(ComplexOps.plus, s, t) == Zipped(ComplexOps.plus, t, s)
  {
    ZippedCommutes(ComplexOps.plus, s, t);
  }

  /** The same for real scalars. */
  lemma RealPlusCommutes(s: seq<int>, t: seq<int>)
    requires |s| == |t|
    ensures Zipped(RealOps.plus, s, t) == Zipped(RealOps.plus, t, s)
  {
    ZippedCommutes(RealOps.plus, s, t);
  }
}
