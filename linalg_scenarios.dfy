/** The scenarios of the tests of linalg::vector<3, std::complex<float>>,
    with Gaussian integers for the complex scalars, proved from the
    contracts of the operations alone. */
module LinalgScenarios {
  import opened Errors
  import opened ScalarTraits
  import opened ElementWise
  import opened LinalgVector
  import opened VectorBase

  /** A vector of three complex scalars holding a, b and c. */
  method Make3(a: Gaussian, b: Gaussian, c: Gaussian) returns (v: Vector<Gaussian>)
    ensures fresh(v) && fresh(v.elm) && v.Valid() && v.DIM == 3 && v.ops == ComplexOps
    ensures v.Elements() == [a, b, c]
  {
    v := new Vector(3, ComplexOps);
    v.Set(0, a);
    v.Set(1, b);
    v.Set(2, c);
  }

  /** Default construction gives complex zeros; at writes and reads back,
      and at(3) throws out_of_range. */
  method AccessScenario() returns (zeros: seq<Gaussian>, a: seq<Result<Gaussian>>)
    ensures zeros == [Gaussian(0, 0), Gaussian(0, 0), Gaussian(0, 0)]
    ensures a == [Ok(Gaussian(5, 1)), Ok(Gaussian(7, 2)), Ok(Gaussian(11, 3)), Err(OutOfRange)]
  {
    var v := new Vector(3, ComplexOps);
    zeros := v.elm[..];
    var _ := v.SetAt(0, Gaussian(5, 1));
    var _ := v.SetAt(1, Gaussian(7, 2));
    var _ := v.SetAt(2, Gaussian(11, 3));
    var a0 := v.At(0);
    var a1 := v.At(1);
    var a2 := v.At(2);
    var a3 := v.At(3);
    a := [a0, a1, a2, a3];
  }

  /** v + w and w + v agree element by element. */
  method PlusScenario() returns (x: seq<Gaussian>, y: seq<Gaussian>)
    ensures x == [Gaussian(1, 10), Gaussian(2, 20), Gaussian(3, 30)]
    ensures y == x
  {
    var v := Make3(Gaussian(1, 0), Gaussian(2, 0), Gaussian(3, 0));
    var w := Make3(Gaussian(0, 10), Gaussian(0, 20), Gaussian(0, 30));
    var vw := Plus(v, w);
    var wv := Plus(w, v);
    x := vw.elm[..];
    y := wv.elm[..];
  }

  /** scale(3) multiplies every element by 3. */
  method ScaleScenario() returns (x: seq<Gaussian>)
    ensures x == [Gaussian(3, 30), Gaussian(6, 60), Gaussian(9, 90)]
  {
    var v := Make3(Gaussian(1, 10), Gaussian(2, 20), Gaussian(3, 30));
    var w := Scale(v, Gaussian(3, 0));
    x := w.elm[..];
  }

  function Square(z: Gaussian): (r: Gaussian)
  {
    ComplexMul(z, z)
  }

  function PlusTwo(z: Gaussian): (r: Gaussian)
  {
    ComplexAdd(z, Gaussian(2, 0))
  }

  /** map squares, or adds 2 to, every element and leaves v as it was. */
  method MapScenario() returns (x: seq<Gaussian>, y: seq<Gaussian>, z: seq<Gaussian>)
    ensures x == [Gaussian(-99, 20), Gaussian(-396, 80), Gaussian(-891, 180)]
    ensures y == [Gaussian(3, 10), Gaussian(4, 20), Gaussian(5, 30)]
    ensures z == [Gaussian(1, 10), Gaussian(2, 20), Gaussian(3, 30)]
  {
    var v := Make3(Gaussian(1, 10), Gaussian(2, 20), Gaussian(3, 30));
    var sq := v.Map(Square);
    var p2 := v.Map(PlusTwo);
    x := sq.elm[..];
    y := p2.elm[..];
    z := v.elm[..];
  }

  /** inner_product conjugates its right argument:
      (1+4i)(2-3i) + (2+5i)(5-7i) + (3+6i)(11-13i) = 170+43i. */
  method InnerProductScenario() returns (x: Gaussian)
    ensures x == Gaussian(170, 43)
  {
    var v := Make3(Gaussian(1, 4), Gaussian(2, 5), Gaussian(3, 6));
    var w := Make3(Gaussian(2, 3), Gaussian(5, 7), Gaussian(11, 13));
    x := InnerProduct(v, w);
    var l, r := v.Elements(), w.Elements();
    assert l[..2][..1] == [Gaussian(1, 4)] && r[..2][..1] == [Gaussian(2, 3)];
    assert l[..2] == [Gaussian(1, 4), Gaussian(2, 5)] && r[..2] == [Gaussian(2, 3), Gaussian(5, 7)];
    assert InnerSum(ComplexOps, l[..2][..1], r[..2][..1]) == Gaussian(14, 5);
    assert InnerSum(ComplexOps, l[..2], r[..2]) == Gaussian(59, 16);
  }
}
