/** The earlier dicek::math::vector<DIM, real> of include/dicek/vector.hpp:
    a std::array of DIM real scalars with a value-initialising default
    constructor, element access and element-wise operator+. Real scalars
    are modelled as int. */
module SecondVector {
  import opened Errors
  import opened ElementWise

  /** The real scalar's operator+, on the int model of a real. */
  function Add(x: int, y: int): (r: int)
  {
    x + y
  }

  class Vector {
    const DIM: nat
    const elm: array<int>

    ghost predicate Valid()
    {
      elm.Length == DIM
    }

    ghost function Elements(): (s: seq<int>)
      reads elm
    {
      elm[..]
    }

    /** vector() : m_elm() makes DIM zeros. */
    constructor (dim: nat)
      ensures Valid() && DIM == dim && fresh(elm)
      ensures Elements() == seq(dim, _ => 0)
    {
      DIM := dim;
      elm := new int[dim](_ => 0);
    }

    /** at(index), read through a const or a mutable vector. */
    method At(index: nat) returns (r: Result<int>)
      requires Valid()
      ensures index < DIM ==> r == Ok(elm[index])
      ensures DIM <= index ==> r == Err(OutOfRange)
    {
      if index < elm.Length {
        r := Ok(elm[index]);
      } else {
        r := Err(OutOfRange);
      }
    }

    /** at(index) = x: out_of_range and no change when index >= DIM. */
    method SetAt(index: nat, x: int) returns (r: Outcome)
      requires Valid()
      modifies elm
      ensures r == if index < DIM then Pass else Fail(OutOfRange)
      ensures Elements() == if index < DIM then old(Elements())[index := x] else old(Elements())
    {
      if index < elm.Length {
        elm[index] := x;
        r := Pass;
      } else {
        r := Fail(OutOfRange);
      }
    }

    /** operator[](index), read, unchecked. */
    method Get(index: nat) returns (x: int)
      requires Valid() && index < DIM
      ensures x == elm[index]
    {
      x := elm[index];
    }

    /** operator[](index) = x, unchecked. */
    method Set(index: nat, x: int)
      requires Valid() && index < DIM
      modifies elm
      ensures Elements() == old(Elements())[index := x]
    {
      elm[index] := x;
    }

    /** operator+(rhs) const: a new vector of element-wise sums; both
        operands are unchanged. */
    method Plus(rhs: Vector) returns (ret: Vector)
      requires Valid() && rhs.Valid() && rhs.DIM == DIM
      ensures fresh(ret) && fresh(ret.elm) && ret.Valid() && ret.DIM == DIM
      ensures ret.Elements() == Zipped(Add, Elements(), rhs.Elements())
      ensures forall i :: 0 <= i < DIM ==> ret.elm[i] == elm[i] + rhs.elm[i]
      ensures Elements() == old(Elements()) && rhs.Elements() == old(rhs.Elements())
    {
      ret := new Vector(DIM);
      for index := 0 to DIM
        invariant fresh(ret.elm) && ret.Valid() && ret.DIM == DIM
        invariant forall k :: 0 <= k < index ==> ret.elm[k] == elm[k] + rhs.elm[k]
      {
        var x := Get(index);
        var y := rhs.Get(index);
        ret.Set(index, x + y);
      }
    }
  }

  /** operator+ is commutative. */
  lemma PlusCommutes(s: seq<int>, t: seq<int>)
    requires |s| == |t|
    ensures Zipped(Add, s, t) == Zipped(Add, t, s)
  {
    ZippedCommutes(Add, s, t);
  }

  /** vector3dTest's default-constructor, at, at-throw and operator[]
      scenarios on a vector<3, double>. */
  method AccessScenario() returns (zeros: seq<int>, a: seq<Result<int>>, b: seq<int>)
    ensures zeros == [0, 0, 0]
    ensures a == [Ok(5), Ok(7), Ok(11), Err(OutOfRange)]
    ensures b == [13, 17, 19]
  {
    var v := new Vector(3);
    zeros := v.elm[..];
    var _ := v.SetAt(0, 5);
    var _ := v.SetAt(1, 7);
    var _ := v.SetAt(2, 11);
    var a0 := v.At(0);
    var a1 := v.At(1);
    var a2 := v.At(2);
    var a3 := v.At(3);
    a := [a0, a1, a2, a3];
    var w := new Vector(3);
    w.Set(0, 13);
    w.Set(1, 17);
    w.Set(2, 19);
    var b0 := w.Get(0);
    var b1 := w.Get(1);
    var b2 := w.Get(2);
    b := [b0, b1, b2];
  }

  /** vector3dTest's operator+ scenario: v + w and w + v agree. */
  method PlusScenario() returns (x: seq<int>, y: seq<int>)
    ensures x == [11, 22, 33]
    ensures y == x
  {
    var v := new Vector(3);
    v.Set(0, 1);
    v.Set(1, 2);
    v.Set(2, 3);
    var w := new Vector(3);
    w.Set(0, 10);
    w.Set(1, 20);
    w.Set(2, 30);
    var vw := v.Plus(w);
    var wv := w.Plus(v);
    x := vw.elm[..];
    y := wv.elm[..];
  }
}
