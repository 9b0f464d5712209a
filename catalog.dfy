/** The fruit catalog of `app.py`: a fixed list of sprite file names and a random pick among them. */
module Catalog {
  import opened Randomness

  /** The nine sprite names, in the order the source lists them. */
  const Fruits: seq<string> := [
    "Apple.png", "Banana.png", "BellPepper-orange_Half.png", "BellPepper-orange.png",
    "Jalepeño_Half.png", "Jalepeño.png", "Orange.png", "Tomato_Half.png", "Tomato.png"
  ]

  /** `get_random_fruit()`: one of the catalog's names, chosen by `draw`. */
  function GetRandomFruit(draw: nat): (f: string)
    ensures f in Fruits
  {
    Choice(Fruits, draw)
  }

  /** Every catalog entry can be picked, the one picked last time included: picks may repeat. */
  lemma {:induction false} EveryFruitReachable(f: string)
    requires f in Fruits
    ensures exists draw: nat :: GetRandomFruit(draw) == f
  {
    var k :| 0 <= k < |Fruits| && Fruits[k] == f;
    ChoiceReaches(Fruits, k);
    assert GetRandomFruit(k) == f;
  }
}
