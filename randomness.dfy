/**
 * Python's `random` module, seen as an oracle: every call receives a
 * `draw` chosen by the environment, and the result is a function of it.
 * Every value the Python call can produce is reachable by some draw.
 */
module Randomness {
  import opened Common

  /**
   * `random.randint(lo, hi)`: an integer of `[lo, hi]`, both ends included.
   * An empty range makes Python raise `ValueError`, here `None`.
   */
  function RandInt(lo: int, hi: int, draw: nat): (r: Option<int>)
    ensures r.None? <==> hi < lo
    ensures r.Some? ==> lo <= r.value <= hi
  {
    if hi < lo then None else Some(lo + draw % (hi - lo + 1))
  }

  /** Every integer of a non-empty range is produced by some draw. */
  lemma RandIntReaches(lo: int, hi: int, v: int)
    requires lo <= v <= hi
    ensures RandInt(lo, hi, v - lo) == Some(v)
  {
    assert (v - lo) % (hi - lo + 1) == v - lo by {
      ModSmall(v - lo, hi - lo + 1);
    }
  }

  lemma ModSmall(a: nat, m: int)
    requires a < m
    ensures a % m == a
  {
  }

  /** `random.choice(xs)`: one of the elements of a non-empty list. */
  function Choice<T>(xs: seq<T>, draw: nat): (r: T)
    requires xs != []
    ensures r in xs
  {
    xs[draw % |xs|]
  }

  /** Every element of the list is produced by some draw. */
  lemma ChoiceReaches<T>(xs: seq<T>, k: nat)
    requires k < |xs|
    ensures Choice(xs, k) == xs[k]
  {
    ModSmall(k, |xs|);
  }
}
