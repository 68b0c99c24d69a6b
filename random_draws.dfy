/**
 * `random.randint(lo, hi)` with the random draw supplied by the caller.
 * The draw is only constrained when the range is non-empty; an empty range
 * raises `ValueError` in the source, modelled as `None`.
 */
module RandomDraws {
  import opened Wrappers

  /** The caller's draw is a value randint could have returned. */
  predicate ValidDraw(lo: int, hi: int, draw: int) {
    lo <= hi ==> lo <= draw <= hi
  }

  function RandInt(lo: int, hi: int, draw: int): (r: Option<int>)
    requires ValidDraw(lo, hi, draw)
    ensures r.Some? <==> lo <= hi
    ensures r.Some? ==> lo <= r.value <= hi && r.value == draw
  {
    if lo <= hi then Some(draw) else None
  }
}
