/** Specification functions on the element sequences of vectors: what the
    index loops of map, add_impl and the earlier operator+ compute. */
module ElementWise {

  /** The sequence of f applied to each element of s, in order. */
  function Mapped<T>(f: T -> T, s: seq<T>): (r: seq<T>)
    ensures |r| == |s|
    ensures forall i :: 0 <= i < |s| ==> r[i] == f(s[i])
  {
    if s == [] then [] else [f(s[0])] + Mapped(f, s[1..])
  }

  /** The sequence of plus applied to corresponding elements of s and t. */
  function Zipped<T>(plus: (T, T) -> T, s: seq<T>, t: seq<T>): (r: seq<T>)
    requires |s| == |t|
    ensures |r| == |s|
    ensures forall i :: 0 <= i < |s| ==> r[i] == plus(s[i], t[i])
  {
    if s == [] then [] else [plus(s[0], t[0])] + Zipped(plus, s[1..], t[1..])
  }

  /** A commutative element operation gives a commutative element-wise sum. */
  lemma ZippedCommutes<T>(plus: (T, T) -> T, s: seq<T>, t: seq<T>)
    requires |s| == |t|
    requires forall i :: 0 <= i < |s| ==> plus(s[i], t[i]) == plus(t[i], s[i])
    ensures Zipped(plus, s, t) == Zipped(plus, t, s)
  {
  }

  /** Taking a prefix commutes with the element-wise operations. */
  lemma MappedPrefix<T>(f: T -> T, s: seq<T>, n: nat)
    requires n <= |s|
    ensures Mapped(f, s)[..n] == Mapped(f, s[..n])
  {
  }

  lemma ZippedPrefix<T>(plus: (T, T) -> T, s: seq<T>, t: seq<T>, n: nat)
    requires |s| == |t| && n <= |s|
    ensures Zipped(plus, s, t)[..n] == Zipped(plus, s[..n], t[..n])
  {
  }
}
