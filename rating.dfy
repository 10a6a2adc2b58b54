/** Rating.swift: the star rating of a completed level. */
module Ratings {
  import opened Wrappers

  /** The raw value of each case is the number of stars it stands for. */
  datatype Rating = Empty | Single | Double | Triple {

    /** `rawValue`: empty = 0, single = 1, double = 2, triple = 3. */
    function RawValue(): (n: nat)
      ensures n <= 3
    {
      match this
      case Empty => 0
      case Single => 1
      case Double => 2
      case Triple => 3
    }
  }

  /** `Rating(rawValue:)`: the rating with `n` stars, if there is one. */
  function RatingOfRaw(n: int): (r: Option<Rating>)
    ensures r.Some? <==> 0 <= n <= 3
    ensures r.Some? ==> r.value.RawValue() == n
  {
    if n == 0 then Some(Empty)
    else if n == 1 then Some(Single)
    else if n == 2 then Some(Double)
    else if n == 3 then Some(Triple)
    else None
  }

  /** Every rating is recovered from its raw value. */
  lemma RawValueRoundTrip(r: Rating)
    ensures RatingOfRaw(r.RawValue()) == Some(r)
  {
  }

  /** Raw values are pairwise distinct. */
  lemma RawValueInjective(r: Rating, s: Rating)
    ensures r.RawValue() == s.RawValue() ==> r == s
  {
    RawValueRoundTrip(r);
    RawValueRoundTrip(s);
  }
}
