/** The earliest dicek::math::vector<DIM, real> of include/dicek/Vector.hpp:
    a std::array of DIM scalars reachable only through at. */
module FirstVector {
  import opened Errors

  class Vector<T(0)> {
    const DIM: nat
    const elm: array<T>

    ghost predicate Valid()
    {
      elm.Length == DIM
    }

    ghost function Elements(): (s: seq<T>)
      reads elm
    {
      elm[..]
    }

    /** The implicit default constructor: the std::array is
        default-initialised, so the scalars' values are indeterminate and the
        contract says nothing about them. */
    constructor (dim: nat)
      ensures Valid() && DIM == dim && fresh(elm)
    {
      DIM := dim;
      elm := new T[dim];
    }

    /** at(index), read through a const or a mutable vector:
        std::array::at, which throws out_of_range when index >= DIM. */
    method At(index: nat) returns (r: Result<T>)
      requires Valid()
      ensures index < DIM ==> r == Ok(elm[index])
      ensures DIM <= index ==> r == Err(OutOfRange)
    {
      if index < elm.Length {
        r := Ok(elm[index]);
      } else {
        r := Err(OutOfRange);
      }
    }

    /** at(index) = x, through the mutable reference. */
    method SetAt(index: nat, x: T) returns (r: Outcome)
      requires Valid()
      modifies elm
      ensures r == if index < DIM then Pass else Fail(OutOfRange)
      ensures Elements() == if index < DIM then old(Elements())[index := x] else old(Elements())
    {
      if index < elm.Length {
        elm[index] := x;
        r := Pass;
      } else {
        r := Fail(OutOfRange);
      }
    }
  }

  /** Writing through mutable at and reading back through const at: the
      read returns the written value, and every other element keeps its
      value; out of range, both fail and nothing changes. */
  method WriteThenRead<T(0)>(v: Vector<T>, index: nat, x: T) returns (w: Outcome, r: Result<T>)
    requires v.Valid()
    modifies v.elm
    ensures index < v.DIM ==> w == Pass && r == Ok(x)
    ensures v.DIM <= index ==> w == Fail(OutOfRange) && r == Err(OutOfRange)
    ensures forall j :: 0 <= j < v.DIM && j != index ==> v.elm[j] == old(v.elm[j])
  {
    w := v.SetAt(index, x);
    r := v.At(index);
  }

  /** A fresh vector has the dimension it was instantiated with, whatever
      its indeterminate contents. */
  method DimScenario() returns (dim: nat, last: Result<int>, past: Result<int>)
    ensures dim == 3
    ensures last.Ok?
    ensures past == Err(OutOfRange)
  {
    var v := new Vector<int>(3);
    dim := v.DIM;
    last := v.At(2);
    past := v.At(3);
  }
}
