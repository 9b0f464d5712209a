/**
 * The fingertip track of `game.py`: the list `index_finger_positions` of
 * recent index-fingertip pixels, oldest first, bounded by `num_finger_markers`.
 */
module FingertipTrack {
  import opened Common

  /** `num_finger_markers`. */
  const Capacity: nat := 7

  /** The last `n` elements of `s` (all of `s` when it is shorter). */
  function Last<T>(s: seq<T>, n: nat): (r: seq<T>)
    ensures |r| == if |s| <= n then |s| else n
    ensures forall k :: 0 <= k < |r| ==> r[k] == s[|s| - |r| + k]
  {
    if |s| <= n then s else s[|s| - n..]
  }

  /**
   * One push: `append` the new position, then `pop(0)` once if the list has
   * grown beyond the capacity.
   */
  function Push(t: seq<Point>, p: Point): (r: seq<Point>)
    ensures |t| <= Capacity ==> r == Last(t + [p], Capacity)
    ensures |r| > 0 && r[|r| - 1] == p
    ensures |t| < Capacity ==> r == t + [p]
    ensures Capacity <= |t| ==> |r| == |t| && r == t[1..] + [p]
  {
    var u := t + [p];
    if |u| > Capacity then u[1..] else u
  }

  /** A push keeps a track that respects the capacity within it. */
  lemma PushBounded(t: seq<Point>, p: Point)
    requires |t| <= Capacity
    ensures |Push(t, p)| <= Capacity
  {
  }

  /** Pushing the positions of `ps` one after the other. */
  function PushAll(t: seq<Point>, ps: seq<Point>): seq<Point>
    decreases |ps|
  {
    if ps == [] then t else PushAll(Push(t, ps[0]), ps[1..])
  }

  lemma LastOfLast<T>(u: seq<T>, v: seq<T>, n: nat)
    ensures Last(Last(u, n) + v, n) == Last(u + v, n)
  {
    if |u| > n {
      var w := Last(u, n) + v;
      var a, b := Last(w, n), Last(u + v, n);
      assert |a| == |b|;
      forall k | 0 <= k < |a|
        ensures a[k] == b[k]
      {
        var j := |v| + k;
        assert a[k] == w[j];
        assert b[k] == (u + v)[|u| - n + j];
      }
    }
  }

  /**
   * However many positions are pushed, the track holds the most recent
   * ones that fit, oldest first and newest last.
   */
  lemma {:induction false} PushAllKeepsMostRecent(t: seq<Point>, ps: seq<Point>)
    requires |t| <= Capacity
    ensures PushAll(t, ps) == Last(t + ps, Capacity)
    ensures |PushAll(t, ps)| <= Capacity
    decreases |ps|
  {
    if ps == [] {
      assert t + ps == t;
    } else {
      var t' := Push(t, ps[0]);
      PushAllKeepsMostRecent(t', ps[1..]);
      calc {
        PushAll(t, ps);
        PushAll(t', ps[1..]);
        Last(Last(t + [ps[0]], Capacity) + ps[1..], Capacity);
        { LastOfLast(t + [ps[0]], ps[1..], Capacity); }
        Last(t + [ps[0]] + ps[1..], Capacity);
        { SplitFirst(t, ps); }
        Last(t + ps, Capacity);
      }
    }
  }

  lemma SplitFirst<T>(t: seq<T>, ps: seq<T>)
    requires ps != []
    ensures t + [ps[0]] + ps[1..] == t + ps
  {
    assert [ps[0]] + ps[1..] == ps;
  }

  /** After ten pushes onto an empty track it holds the last seven, oldest first. */
  lemma TenPushes(ps: seq<Point>)
    requires |ps| == 10
    ensures PushAll([], ps) == ps[3..]
  {
    PushAllKeepsMostRecent([], ps);
    assert [] + ps == ps;
  }
}
