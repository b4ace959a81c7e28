/** The `input` listener of the seconds field: the value becomes its absolute value,
    then anything not below 3600 becomes 3600. */
module InputClamp {

  /** The largest number of seconds the field keeps. */
  const MaxSeconds := 3600

  function Abs(v: int): nat
  {
    if v < 0 then -v else v
  }

  /** `Math.abs(v)`, then `v < 3600 ? v : 3600`: the smaller of `|v|` and 3600. */
  function Normalize(v: int): (r: int)
    ensures 0 <= r <= MaxSeconds
    ensures r <= Abs(v) && (r == Abs(v) || r == MaxSeconds)
    ensures r == Abs(v) <==> Abs(v) <= MaxSeconds
  {
    var a := Abs(v);
    if a < MaxSeconds then a else MaxSeconds
  }

  /** Normalizing a normalized value changes nothing. */
  lemma NormalizeIdempotent(v: int)
    ensures Normalize(Normalize(v)) == Normalize(v)
  {
  }

  /** The values the listener leaves alone are exactly those in [0, 3600]. */
  lemma NormalizeFixedPoints(v: int)
    ensures Normalize(v) == v <==> 0 <= v <= MaxSeconds
  {
  }

  /** A value and its negation normalize alike: `-5` becomes 5, `9999` becomes 3600. */
  lemma NormalizeExamples(v: int)
    ensures Normalize(-v) == Normalize(v)
    ensures Normalize(-5) == 5 && Normalize(9999) == MaxSeconds
  {
  }
}
