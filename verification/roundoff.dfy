/**
 The precision guard shared by both accumulators (`_limits` and
 `_check_roundoff` in mdp/nodes/lcov.py), and the two error conditions the
 accumulators raise.
 */
module Roundoff {

  /** A numeric typecode ('d' double, 'f' single, ...). The empty string stands
      for "not set": the accumulators then inherit the typecode of the first batch. */
  type Typecode = string

  /** Counts at or above these ceilings are assumed to have lost precision. */
  const Limits: map<Typecode, nat> := map["d" := 10_000_000_000_000, "f" := 100_000]

  datatype Error =
    /** MDPWarning: so many entries were summed that round-off is likely severe. */
    | RoundoffWarning(count: nat, typecode: Typecode)
    /** MDPException: a block is shorter than the time delay plus one. */
    | BlockTooShort(length: nat, required: nat)

  /** Success or an error, for operations that return nothing else. */
  datatype Outcome = Pass | Fail(error: Error)

  /** A value or an error. */
  datatype Result<T> = Ok(value: T) | Err(error: Error)

  /**
   The guard. The count is the accumulator's observation count; the source
   casts it to the typecode first, which is exact for every count below the
   ceilings and monotone above them, so testing the exact count gives the
   same verdict. Only 'd' and 'f' have a ceiling.
   */
  function CheckRoundoff(t: nat, typecode: Typecode): (r: Outcome)
    ensures r.Fail? <==> (typecode == "d" && t >= 10_000_000_000_000)
                         || (typecode == "f" && t >= 100_000)
    ensures r.Fail? ==> r.error == RoundoffWarning(t, typecode)
  {
    if typecode in Limits && t >= Limits[typecode] then
      Fail(RoundoffWarning(t, typecode))
    else
      Pass
  }

  /** Once the guard trips, every larger count trips it too. */
  lemma CheckRoundoffMonotone(t: nat, u: nat, typecode: Typecode)
    requires t <= u
    requires CheckRoundoff(t, typecode).Fail?
    ensures CheckRoundoff(u, typecode).Fail?
  {
  }
}
