# dicek fixed-dimension vectors, modelled in Dafny

dicek is a header-only C++ library of numeric vectors for linear algebra.
This project models its fixed-dimension vector headers:

- `include/dicek/linalg/vector.hpp`: `linalg::vector<DIM, T>`, a wrapper over
  `std::array<T, DIM>`. It offers bounds-checked `at`, unchecked `operator[]`,
  `map`, element-wise `add_impl`, `scale_impl`, and the free functions
  `inner_product` and `norm`.
- `include/dicek/vector_base.hpp`: the CRTP base whose `operator+` and `scale`
  forward to `add_impl` and `scale_impl`.
- `include/dicek/scalar_traits.hpp`: `scalar_traits<T>::conj`, the identity
  for real scalars and `std::conj` for `std::complex`.
- `include/dicek/vector.hpp`: an earlier `vector<DIM, real>` with a zeroing
  default constructor, `at`, `operator[]` and element-wise `operator+`.
- `include/dicek/Vector.hpp`: the earliest `vector<DIM, real>`, with `at` only.

The three vector headers share one include guard, so they are alternative
revisions of one class. Each is its own module here: `LinalgVector`,
`SecondVector` (vector.hpp) and `FirstVector` (Vector.hpp).

Scalars are exact. A real scalar is an `int`. A complex scalar is a Gaussian
integer `Gaussian(re, im)`, and its conjugate is `Gaussian(re, -im)`. The
linalg vector is generic. Its template arguments `scalar_type` and
`scalar_traits` become a `ScalarOps<T>` record: the value-initialised scalar
`T()`, the type's `+` and `*`, and the traits' `conj`. `RealOps` and
`ComplexOps` are the two instances.

Each vector is a class. It holds a `const DIM` and its `std::array` as an
`array<T>`. A C++ `at` or `operator[]` hands back a reference. Here each one
becomes two methods: one reads (`At`, `Get`) and one writes through the
reference (`SetAt`, `Set`). `std::out_of_range` and `std::range_error` come
back as `Err(OutOfRange)` / `Fail(OutOfRange)` and `Fail(RangeError)` from
module `Errors`. A C++ function that returns a vector by value becomes a
method that returns a freshly allocated vector. The index loops of `map`,
`add_impl`, `operator+` and `inner_product` are Dafny `for` loops. Each loop
is proved against a specification function: `Mapped`, `Zipped` or
`InnerSum`.

The `LinalgScenarios` module and the `*Scenario` methods replay the unit
tests' scenarios. They use Gaussian integers where the tests use
`complex<float>`. Each is proved from the operations' contracts.

The project models these headers as written, not the library's later design. Its tests
use a reference-counted, allocator-aware vector with iterators, which none
of the headers modelled here implements. `scalar_traits::abs` is called by `norm` but defined
nowhere in these headers.

## Model

| member | source | states |
|---|---|---|
| `ScalarTraits.RealConj` | include/dicek/scalar_traits.hpp:14-17 | the primary template's conj: returns val unchanged; RealConjIsIdentity and ConjInvolution state it |
| `ScalarTraits.ComplexConj` | include/dicek/scalar_traits.hpp:24-27 | the std::complex specialisation's conj, std::conj on the Gaussian stand-in; ComplexConjParts, ConjInvolution and ComplexConjOfReal state it |
| `ScalarTraits.RealOps` | include/dicek/scalar_traits.hpp:10-18 | scalar_traits for a real scalar, bundled with the scalar's zero, + and *; its conj is RealConj |
| `ScalarTraits.ComplexOps` | include/dicek/scalar_traits.hpp:20-28 | scalar_traits for std::complex, bundled with complex zero, + and *; its conj is ComplexConj |
| `ScalarTraits.RealConjIsIdentity` | include/dicek/scalar_traits.hpp:14-17 | for a real scalar, conj(x) == x |
| `ScalarTraits.ComplexConjParts` | include/dicek/scalar_traits.hpp:24-27 | for a complex scalar, conj keeps the real part and negates the imaginary part |
| `ScalarTraits.ConjInvolution` | include/dicek/scalar_traits.hpp:14-27 | conj(conj(x)) == x in both specialisations |
| `ScalarTraits.ComplexConjOfReal` | include/dicek/scalar_traits.hpp:24-27 | a complex value is its own conjugate exactly when its imaginary part is zero, matching the real case |
| `ScalarTraits.ComplexTimesConj` | include/dicek/scalar_traits.hpp:24-27 | z * conj(z) is a real number >= 0 |
| `ElementWise.Mapped` | include/dicek/linalg/vector.hpp:65-67 | what map's loop fills in: same length, element i is f(s[i]) |
| `ElementWise.Zipped` | include/dicek/linalg/vector.hpp:78-80 | what add_impl's loop fills in: same length, element i is s[i] + t[i] |
| `LinalgVector.Vector.constructor` | include/dicek/linalg/vector.hpp:43 | a new vector has DIM elements, and every element is the scalar zero T() |
| `LinalgVector.Vector.At` | include/dicek/linalg/vector.hpp:45-51 | at(i) gives element i when i < DIM, and out_of_range when i >= DIM |
| `LinalgVector.Vector.SetAt` | include/dicek/linalg/vector.hpp:45-47 | writing through at(i) with i < DIM changes element i only; when i >= DIM it fails with out_of_range and changes nothing |
| `LinalgVector.Vector.Get` | include/dicek/linalg/vector.hpp:57-59 | operator[](i) reads element i; i < DIM is the caller's obligation |
| `LinalgVector.Vector.Set` | include/dicek/linalg/vector.hpp:53-55 | writing through operator[](i) replaces element i and nothing else |
| `LinalgVector.Vector.Map` | include/dicek/linalg/vector.hpp:61-70 | map(f) returns a new vector with ret[i] == f(v[i]) for every i < DIM; v is unchanged |
| `LinalgVector.Vector.AddImpl` | include/dicek/linalg/vector.hpp:75-83 | add_impl returns a new vector with ret[i] == v[i] + w[i]; both operands are unchanged |
| `LinalgVector.MultiplyBy` | include/dicek/linalg/vector.hpp:86 | scale_impl's lambda: multiplication by val, with val on the left; ScaleImpl states what map makes of it |
| `LinalgVector.Vector.ScaleImpl` | include/dicek/linalg/vector.hpp:85-87 | scale_impl(val) is map of multiplication by val, so ret[i] == val * v[i] |
| `LinalgVector.InnerProduct` | include/dicek/linalg/vector.hpp:92-102 | inner_product starts from the scalar zero and adds lhs[i] * conj(rhs[i]) for i = 0 .. DIM-1, in order |
| `LinalgVector.InnerSumRealIsDot` | include/dicek/linalg/vector.hpp:92-102 | for real scalars the inner product is the plain dot product, which is defined independently (summed from the front) |
| `LinalgVector.InnerSumConjSymmetric` | include/dicek/linalg/vector.hpp:92-102 | for complex scalars, swapping the arguments conjugates the inner product |
| `LinalgVector.InnerSumSelfIsNonNegativeReal` | include/dicek/linalg/vector.hpp:92-102 | the complex inner product of a vector with itself is a non-negative real |
| `LinalgVector.InnerSumAdditive` | include/dicek/linalg/vector.hpp:75-102 | the inner product of add_impl(u, v) with w is the sum of the two inner products |
| `LinalgVector.InnerSumHomogeneous` | include/dicek/linalg/vector.hpp:85-102 | the inner product of scale_impl(a) of v with w is a times the inner product of v and w |
| `LinalgVector.NormOrderCheck` | include/dicek/linalg/vector.hpp:104-109 | norm fails with range_error exactly when p < 1, and that check depends on p alone |
| `VectorBase.Plus` | include/dicek/vector_base.hpp:18-22 | the base's const operator+ returns add_impl(rhs): element-wise sums in a new vector, operands unchanged |
| `VectorBase.Scale` | include/dicek/vector_base.hpp:24-28 | the base's const scale(val), which takes the vector's own scalar type, returns scale_impl(val): ret[i] == val * v[i], receiver unchanged |
| `VectorBase.ComplexPlusCommutes` | include/dicek/linalg/vector.hpp:75-83 | v + w == w + v for complex scalars |
| `VectorBase.RealPlusCommutes` | include/dicek/linalg/vector.hpp:75-83 | v + w == w + v for real scalars |
| `LinalgScenarios.AccessScenario` | test/deprecated/vector2cTest.hpp:50-87 | a default vector<3, complex> holds zeros; at writes are read back; at(3) is out_of_range |
| `LinalgScenarios.PlusScenario` | test/deprecated/vector2cTest.hpp:113-136 | (1,2,3) + (10i,20i,30i) is (1+10i, 2+20i, 3+30i), and the sum in the other order is equal |
| `LinalgScenarios.ScaleScenario` | test/deprecated/vector2cTest.hpp:138-148 | scale(3) of (1+10i, 2+20i, 3+30i) is (3+30i, 6+60i, 9+90i) |
| `LinalgScenarios.MapScenario` | test/deprecated/vector2cTest.hpp:150-167 | map of squaring and map of adding 2 give the element-wise results and leave the source alone |
| `LinalgScenarios.InnerProductScenario` | test/deprecated/vector2cTest.hpp:169-185 | the tested inner product is (1+4i)(2-3i) + (2+5i)(5-7i) + (3+6i)(11-13i) = 170+43i |
| `SecondVector.Vector.constructor` | include/dicek/vector.hpp:16-19 | a new vector holds DIM zeros |
| `SecondVector.Vector.At` | include/dicek/vector.hpp:21-29 | at(i) gives element i when i < DIM, and out_of_range when i >= DIM |
| `SecondVector.Vector.SetAt` | include/dicek/vector.hpp:21-24 | writing through at(i) changes element i only; out of range it fails and changes nothing |
| `SecondVector.Vector.Get` | include/dicek/vector.hpp:36-39 | operator[](i) reads element i, for i < DIM |
| `SecondVector.Vector.Set` | include/dicek/vector.hpp:31-34 | writing through operator[](i) replaces element i and nothing else |
| `SecondVector.Vector.Plus` | include/dicek/vector.hpp:41-50 | operator+ returns a new vector with ret[i] == v[i] + w[i]; it is const and both operands are unchanged |
| `SecondVector.PlusCommutes` | include/dicek/vector.hpp:41-50 | operator+ is commutative |
| `SecondVector.AccessScenario` | test/vector3dTest.hpp:47-112 | a default vector<3> holds zeros; at and operator[] writes are read back; at(3) is out_of_range |
| `SecondVector.PlusScenario` | test/vector3dTest.hpp:114-138 | (1,2,3) + (10,20,30) == (11,22,33) == (10,20,30) + (1,2,3) |
| `FirstVector.Vector.constructor` | include/dicek/Vector.hpp:10-28 | the implicit constructor gives DIM elements and says nothing of their values, because std::array default-initialisation leaves scalars indeterminate |
| `FirstVector.Vector.At` | include/dicek/Vector.hpp:16-24 | at(i) gives element i when i < DIM, and out_of_range (from std::array::at) when i >= DIM |
| `FirstVector.Vector.SetAt` | include/dicek/Vector.hpp:16-19 | writing through mutable at(i) changes element i only; out of range it fails and changes nothing |
| `FirstVector.WriteThenRead` | include/dicek/Vector.hpp:16-24 | const at(i) reads back what mutable at(i) wrote, other elements keep their values, and out of range both fail |
| `FirstVector.DimScenario` | include/dicek/Vector.hpp:13 | DIM is the template argument; at(DIM - 1) succeeds and at(DIM) fails |

## Left out

- The reference-counted, allocator-aware vector and its iterators, and their `std::pmr` memory resources, are not part of this model. No header modelled here implements them.
- `norm`'s computation is left out: it uses floating-point `pow`, fractional roots and a `scalar_traits::abs` these headers never define. Only its `p < 1` guard is modelled, with `p` as a `real`.
- LinalgVector.NormOrderCheck: does not return the norm itself on success, only that the guard passes, because the norm body is left out.
- Floating-point and `std::complex<float>` arithmetic are left out. Exact `int` and Gaussian integers stand in for them, so there is no rounding, overflow, NaN or infinity.
- Indices and `DIM` are `nat`. The bound of `unsigned long` does not matter: every index is compared with `DIM`, and the only index arithmetic is the loops' `++index` below `DIM`, which cannot wrap.
- `scalar_type.hpp` and the `remove_cv`/`remove_reference` typedef of `scalar_traits` are compile-time type computations with no runtime behaviour. The model's `T` is already the canonical scalar type.
- C++ references: a reference returned by `at` or `operator[]` cannot be kept and written later. Each access is one read or one write method call.
- `operator[]` outside `[0, DIM)` is undefined behaviour in C++. The model requires an in-range index instead of modelling it.
- `map`'s functor is a total, side-effect-free Dafny function `T -> T`. Functors with state, and functors whose result is converted to the scalar type, are not modelled.
- `inner_product` takes two arguments of one type `V`. The model states this as equal dimensions and equal `ScalarOps`.
- Copying a vector by value happens implicitly in C++ and is not a separate operation here. A vector returned by value is a freshly allocated object.
- The tests at test/vector3dTest.hpp:140-204 call `scale`, `map`, `inner_product` and `norm` on the vector.hpp revision, which defines none of them. Those tests are not modelled, and neither are test/VectorTest.hpp, the commented-out tests or the test harnesses.
