/**
 * The entry point `app.py`: the fruit stays at one position for the whole
 * session; a fingertip on the fruit, or the `r` key, swaps it for a new
 * random pick from the catalog. Nothing is counted.
 */
module App {
  import opened Common
  import opened Catalog
  import opened HitTester

  /** The fruit's top-left corner, never reassigned. */
  const StartX: int := 500
  const StartY: int := 500
  /** The keys compared against the low byte of `waitKey`'s result. */
  const ResetKey: int := 'r' as int
  const EscKey: int := 27

  /** `fruit_image.shape[0]` (rows: the height) and `fruit_image.shape[1]` (columns: the width). */
  datatype Shape = Shape(rows: Dim, cols: Dim)

  /** The variables of `main` that the loop reads or reassigns. */
  datatype AppState = AppState(fruit: string, image: Shape, fruitX: int, fruitY: int)

  /**
   * What one pass of the loop sees: whether a frame was read, the fingertip
   * pixel if a hand was found, the draw and the sprite for a replacement on
   * a cut, the first key read (for `r`), the draw and the sprite for a
   * replacement on `r`, and the second key read (for ESC).
   */
  datatype AppFrame = AppFrame(
    ret: bool,
    tip: Option<Point>,
    cutPick: nat,
    cutImage: Shape,
    key1: int,
    resetPick: nat,
    resetImage: Shape,
    key2: int)

  /** The fingertip test of `main`, written as the source's chained comparisons. */
  predicate NearFruit(s: AppState, ix: int, iy: int)
  {
    s.fruitX <= ix <= s.fruitX + s.image.cols && s.fruitY <= iy <= s.fruitY + s.image.rows
  }

  /** It is the shared hit test with the image's columns as width and its rows as height. */
  lemma NearFruitIsHit(s: AppState, ix: int, iy: int)
    ensures NearFruit(s, ix, iy) <==> Hit(Point(ix, iy), s.fruitX, s.fruitY, s.image.cols, s.image.rows)
  {
  }

  /** `k & 0xFF`, for Python's unbounded two's-complement integers: the residue of `k` in `[0, 256)`. */
  function LowByte(k: int): (b: int)
    ensures 0 <= b < 256
    ensures (k - b) % 256 == 0
  {
    k % 256
  }

  /** `waitKey` reports "no key" as -1, whose low byte is 255: neither `r` nor ESC. */
  lemma NoKeyIsNeither()
    ensures LowByte(-1) == 255 && LowByte(-1) != ResetKey && LowByte(-1) != EscKey
  {
  }

  /** A new pick from the catalog and the sprite loaded for it; nothing else changes. */
  function NewFruit(s: AppState, pick: nat, image: Shape): (r: AppState)
    ensures r.fruit in Fruits && r.image == image
    ensures r.fruitX == s.fruitX && r.fruitY == s.fruitY
  {
    s.(fruit := GetRandomFruit(pick), image := image)
  }

  /** One pass of the loop over a frame that was read. */
  function AppStep(s: AppState, f: AppFrame): AppState
  {
    var a := if f.tip.Some? && NearFruit(s, f.tip.value.x, f.tip.value.y)
             then NewFruit(s, f.cutPick, f.cutImage) else s;
    if LowByte(f.key1) == ResetKey then NewFruit(a, f.resetPick, f.resetImage) else a
  }

  /** A pass reassigns only the fruit and its image, and any new fruit comes from the catalog. */
  lemma AppStepChangesOnlyFruit(s: AppState, f: AppFrame)
    ensures var t := AppStep(s, f);
      t.fruitX == s.fruitX && t.fruitY == s.fruitY &&
      (t.fruit == s.fruit || t.fruit in Fruits)
  {
  }

  /** A cut without `r` replaces the fruit with the cut's pick; no score is kept. */
  lemma CutReplacesFruit(s: AppState, f: AppFrame)
    requires f.tip.Some? && NearFruit(s, f.tip.value.x, f.tip.value.y)
    requires LowByte(f.key1) != ResetKey
    ensures AppStep(s, f) == s.(fruit := GetRandomFruit(f.cutPick), image := f.cutImage)
  {
  }

  /** `r` replaces the fruit whether or not there was a cut. */
  lemma ResetReplacesFruit(s: AppState, f: AppFrame)
    requires LowByte(f.key1) == ResetKey
    ensures AppStep(s, f) == s.(fruit := GetRandomFruit(f.resetPick), image := f.resetImage)
  {
  }

  /** Without a cut and without `r` nothing changes. */
  lemma IdlePassChangesNothing(s: AppState, f: AppFrame)
    requires !(f.tip.Some? && NearFruit(s, f.tip.value.x, f.tip.value.y))
    requires LowByte(f.key1) != ResetKey
    ensures AppStep(s, f) == s
  {
  }

  /** The loop: it stops when a frame cannot be read or after a pass whose second key is ESC. */
  function Session(s: AppState, frames: seq<AppFrame>): AppState
    decreases |frames|
  {
    if frames == [] || !frames[0].ret then s
    else
      var t := AppStep(s, frames[0]);
      if LowByte(frames[0].key2) == EscKey then t else Session(t, frames[1..])
  }

  /** However long the session, the fruit never moves and is always a catalog entry. */
  lemma {:induction false} SessionKeepsPosition(s: AppState, frames: seq<AppFrame>)
    requires s.fruit in Fruits
    ensures var t := Session(s, frames);
      t.fruitX == s.fruitX && t.fruitY == s.fruitY && t.fruit in Fruits
    decreases |frames|
  {
    if frames != [] && frames[0].ret {
      var t := AppStep(s, frames[0]);
      AppStepChangesOnlyFruit(s, frames[0]);
      if LowByte(frames[0].key2) != EscKey {
        SessionKeepsPosition(t, frames[1..]);
      }
    }
  }

  /**
   * `main`: nothing when the camera does not open or the first sprite does
   * not load; otherwise the state the loop ends in.
   */
  function Program(cameraOpened: bool, pick: nat, image: Option<Shape>, frames: seq<AppFrame>): Option<AppState>
  {
    if !cameraOpened then None
    else
      var fruit := GetRandomFruit(pick);
      match image
      case None => None
      case Some(img) => Some(Session(AppState(fruit, img, StartX, StartY), frames))
  }

  /** `main` with its loop. */
  method RunMain(cameraOpened: bool, pick: nat, image: Option<Shape>, frames: seq<AppFrame>)
    returns (r: Option<AppState>)
    ensures r == Program(cameraOpened, pick, image, frames)
    ensures r.Some? <==> cameraOpened && image.Some?
    ensures r.Some? ==> r.value.fruitX == StartX && r.value.fruitY == StartY && r.value.fruit in Fruits
  {
    if !cameraOpened {
      return None;
    }
    var fruit := GetRandomFruit(pick);
    if image.None? {
      return None;
    }
    var s := AppState(fruit, image.value, StartX, StartY);
    ghost var start := s;
    var k := 0;
    while k < |frames|
      invariant 0 <= k <= |frames|
      invariant Session(s, frames[k..]) == Session(start, frames)
      invariant s.fruitX == StartX && s.fruitY == StartY && s.fruit in Fruits
    {
      assert frames[k..][0] == frames[k] && frames[k..][1..] == frames[k + 1..];
      var f := frames[k];
      if !f.ret {
        break;
      }
      AppStepChangesOnlyFruit(s, f);
      if f.tip.Some? && NearFruit(s, f.tip.value.x, f.tip.value.y) {
        s := s.(fruit := GetRandomFruit(f.cutPick), image := f.cutImage);
      }
      if LowByte(f.key1) == ResetKey {
        s := s.(fruit := GetRandomFruit(f.resetPick), image := f.resetImage);
      }
      if LowByte(f.key2) == EscKey {
        break;
      }
      k := k + 1;
    }
    return Some(s);
  }
}
