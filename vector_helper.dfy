/** The VectorHelper namespace: membership in a vector, by linear search. */
module VectorHelper {

  /** What std::find returns, as a position: the index of the first element
      equal to `value`, or |vec| (the end iterator) when there is none. */
  function Find<T(==)>(vec: seq<T>, value: T): (i: nat)
    ensures i <= |vec|
    ensures forall j :: 0 <= j < i ==> vec[j] != value
    ensures i < |vec| ==> vec[i] == value
  {
    if vec == [] || vec[0] == value then 0 else 1 + Find(vec[1..], value)
  }

  /** `contains(vec, value)`: find did not stop at the end. */
  function Contains<T(==)>(vec: seq<T>, value: T): (b: bool)
    ensures b <==> exists i :: 0 <= i < |vec| && vec[i] == value
  {
    Find(vec, value) != |vec|
  }

}
