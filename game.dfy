/**
 * The per-frame bookkeeping of `MediapipeLandmarksTest/game.py`: spawning a
 * fruit at a random position, showing it, resetting it when it lies off the
 * frame, expiring it, recording the fingertip track and registering a cut.
 *
 * The module first gives each phase of a frame as a function on an explicit
 * state record, and the whole frame as their composition `Step`; the class
 * `Game` then holds the game's variables as fields and updates them in
 * place, proved equal to `Step`.
 */
module Game {
  import opened Common
  import opened Randomness
  import opened HitTester
  import opened FingertipTrack

  /** Time is counted in integer ticks: milliseconds. */
  const TicksPerSecond: int := 1000
  /** `FRUIT_SPAWN_TIME_SECONDS`, in ticks. */
  const FruitSpawnTime: int := 1 * TicksPerSecond
  /** `FRUIT_SCREEN_TIME_SECONDS`, in ticks. */
  const FruitScreenTime: int := 2 * TicksPerSecond
  /** The screen size written into the viable spawn ranges. */
  const ScreenWidth: int := 1280
  const ScreenHeight: int := 720
  /** The start position, also where an off-frame fruit is put back. */
  const HomeX: int := 600
  const HomeY: int := 300
  /** The key that ends the loop; `waitKey`'s result is compared unmasked. */
  const QuitKey: int := 'q' as int

  /** The width and height of a loaded fruit sprite (`fruit_w`, `fruit_h`). */
  datatype Size = Size(w: Dim, h: Dim)

  /** A two-element list `[lo, hi]` handed to `random.randint`. */
  datatype Range = Range(lo: int, hi: int)

  predicate Within(v: int, r: Range)
  {
    r.lo <= v <= r.hi
  }

  predicate Empty(r: Range)
  {
    r.hi < r.lo
  }

  /** The game's variables. `fruitX`, `fruitY` is the sprite's top-left corner. */
  datatype GameState = GameState(
    isFruitSpawned: bool,
    lastSpawnTime: int,
    lastDisplayTime: int,
    fruitX: int,
    fruitY: int,
    fruitW: Dim,
    fruitH: Dim,
    viableXSpawn: Range,
    viableYSpawn: Range,
    fruitCutCount: nat,
    indexFingerPositions: seq<Point>)

  /**
   * What one frame brings: the clock, the frame's size, the fingertip pixel
   * if a hand was found, the draws of the random calls this frame may make
   * and the sizes of the sprites it may load.
   */
  datatype TickInput = TickInput(
    now: int,
    frameW: int,
    frameH: int,
    tip: Option<Point>,
    spawnDrawX: nat,
    spawnDrawY: nat,
    expiryFruit: Size,
    hitDrawX: nat,
    hitDrawY: nat,
    hitFruit: Size)

  /**
   * The state after a phase, and whether `random.randint` raised
   * `ValueError` on an empty range in it, which ends the program; the state
   * is then the one reached when the exception was raised.
   */
  datatype Outcome = Outcome(st: GameState, raised: bool)

  /** The state before the loop, for the first sprite loaded. */
  function Initial(fruit: Size): GameState
  {
    GameState(
      isFruitSpawned := false,
      lastSpawnTime := 0,
      lastDisplayTime := 0,
      fruitX := HomeX,
      fruitY := HomeY,
      fruitW := fruit.w,
      fruitH := fruit.h,
      viableXSpawn := Range(fruit.w, ScreenWidth - fruit.w),
      viableYSpawn := Range(fruit.h, ScreenHeight - fruit.h),
      fruitCutCount := 0,
      indexFingerPositions := [])
  }

  /**
   * When `random.randint` has an empty range to draw from: the start-up
   * ranges empty beyond half the screen, the post-expiry ones from a
   * sprite two pixels wider (or taller) than the screen.
   */
  lemma EmptyRangeThresholds(w: Dim, h: Dim)
    ensures Empty(Range(w, ScreenWidth - w)) <==> w > 640
    ensures Empty(Range(h, ScreenHeight - h)) <==> h > 360
    ensures Empty(Range(w / 2, ScreenWidth - w / 2)) <==> w >= 1282
    ensures Empty(Range(h / 2, ScreenHeight - h / 2)) <==> h >= 722
  {
  }

  // ---------------------------------------------------------------- phase 1

  predicate SpawnDue(s: GameState, now: int)
  {
    now - s.lastSpawnTime >= FruitSpawnTime && !s.isFruitSpawned
  }

  /** Spawn a fruit once the spawn interval has passed and none is spawned. */
  function Spawn(s: GameState, now: int, drawX: nat, drawY: nat): (o: Outcome)
    ensures o.st.isFruitSpawned != s.isFruitSpawned <==> now - s.lastSpawnTime >= FruitSpawnTime && !s.isFruitSpawned
    ensures !SpawnDue(s, now) ==> o == Outcome(s, false)
    ensures SpawnDue(s, now) ==>
      o.st.isFruitSpawned && o.st.lastSpawnTime == now && o.st.lastDisplayTime == now
    ensures SpawnDue(s, now) && !o.raised ==>
      Within(o.st.fruitX, s.viableXSpawn) && Within(o.st.fruitY, s.viableYSpawn)
    ensures o.raised <==> SpawnDue(s, now) && (Empty(s.viableXSpawn) || Empty(s.viableYSpawn))
    ensures o.raised && Empty(s.viableXSpawn) ==>
      o.st == s.(lastSpawnTime := now, isFruitSpawned := true, lastDisplayTime := now)
    ensures o.raised && !Empty(s.viableXSpawn) ==>
      Within(o.st.fruitX, s.viableXSpawn) &&
      o.st == s.(lastSpawnTime := now, isFruitSpawned := true, lastDisplayTime := now, fruitX := o.st.fruitX)
    ensures o.st.fruitW == s.fruitW && o.st.fruitH == s.fruitH
    ensures o.st.viableXSpawn == s.viableXSpawn && o.st.viableYSpawn == s.viableYSpawn
    ensures o.st.fruitCutCount == s.fruitCutCount
    ensures o.st.indexFingerPositions == s.indexFingerPositions
  {
    if SpawnDue(s, now) then
      var s1 := s.(lastSpawnTime := now, isFruitSpawned := true, lastDisplayTime := now);
      match RandInt(s.viableXSpawn.lo, s.viableXSpawn.hi, drawX)
      case None => Outcome(s1, true)
      case Some(x) =>
        var s2 := s1.(fruitX := x);
        match RandInt(s.viableYSpawn.lo, s.viableYSpawn.hi, drawY)
        case None => Outcome(s2, true)
        case Some(y) => Outcome(s2.(fruitY := y), false)
    else
      Outcome(s, false)
  }

  // ---------------------------------------------------------------- phase 2

  /** The bounds check, which reads `fruitX`, `fruitY` as the top-left corner. */
  predicate InBounds(s: GameState, frameW: int, frameH: int)
  {
    (0 <= s.fruitX < frameW - s.fruitW) && (0 <= s.fruitY < frameH - s.fruitH)
  }

  /** Which branch of the display phase a state takes. */
  datatype Branch = Shown | OffFrame | Expired | NotSpawned

  function DisplayBranch(s: GameState, now: int, frameW: int, frameH: int): Branch
  {
    if s.isFruitSpawned && now - s.lastDisplayTime <= FruitScreenTime then
      if InBounds(s, frameW, frameH) then Shown else OffFrame
    else if s.isFruitSpawned && now - s.lastDisplayTime > FruitScreenTime then
      Expired
    else
      NotSpawned
  }

  /** Exactly one of the display and expiry branches runs for a spawned fruit. */
  lemma DisplayOrExpiry(s: GameState, now: int, frameW: int, frameH: int)
    ensures var b := DisplayBranch(s, now, frameW, frameH);
      (b == NotSpawned <==> !s.isFruitSpawned) &&
      (b in {Shown, OffFrame} <==> s.isFruitSpawned && now - s.lastDisplayTime <= FruitScreenTime) &&
      (b == Expired <==> s.isFruitSpawned && now - s.lastDisplayTime > FruitScreenTime)
  {
  }

  /**
   * Show the fruit (drawing leaves the state alone), put an off-frame fruit
   * back home and unspawn it, or expire a fruit shown for too long: unspawn
   * it, load `loaded` and recompute the viable ranges from its size.
   */
  function Display(s: GameState, now: int, frameW: int, frameH: int, loaded: Size): (r: GameState)
    ensures r.isFruitSpawned ==> s.isFruitSpawned && InBounds(r, frameW, frameH) && now - r.lastDisplayTime <= FruitScreenTime
    ensures DisplayBranch(s, now, frameW, frameH) in {Shown, NotSpawned} ==> r == s
    ensures DisplayBranch(s, now, frameW, frameH) == OffFrame ==>
      r == s.(fruitX := HomeX, fruitY := HomeY, isFruitSpawned := false)
    ensures DisplayBranch(s, now, frameW, frameH) == Expired ==>
      r == s.(isFruitSpawned := false, fruitW := loaded.w, fruitH := loaded.h,
              viableXSpawn := Range(loaded.w / 2, ScreenWidth - loaded.w / 2),
              viableYSpawn := Range(loaded.h / 2, ScreenHeight - loaded.h / 2))
    ensures r.lastSpawnTime == s.lastSpawnTime && r.lastDisplayTime == s.lastDisplayTime
    ensures r.fruitCutCount == s.fruitCutCount && r.indexFingerPositions == s.indexFingerPositions
  {
    if s.isFruitSpawned && now - s.lastDisplayTime <= FruitScreenTime then
      if (0 <= s.fruitX < frameW - s.fruitW) && (0 <= s.fruitY < frameH - s.fruitH) then
        s
      else
        s.(fruitX := HomeX, fruitY := HomeY, isFruitSpawned := false)
    else if s.isFruitSpawned && now - s.lastDisplayTime > FruitScreenTime then
      s.(isFruitSpawned := false, fruitW := loaded.w, fruitH := loaded.h,
         viableXSpawn := Range(loaded.w / 2, ScreenWidth - loaded.w / 2),
         viableYSpawn := Range(loaded.h / 2, ScreenHeight - loaded.h / 2))
    else
      s
  }

  // ---------------------------------------------------------------- phase 3

  /** Record the fingertip, if there is one, in the bounded track. */
  function Track(s: GameState, tip: Option<Point>): (r: GameState)
    ensures tip.None? ==> r == s
    ensures tip.Some? && |s.indexFingerPositions| <= Capacity ==>
      r == s.(indexFingerPositions := Last(s.indexFingerPositions + [tip.value], Capacity))
  {
    if tip.Some? then s.(indexFingerPositions := Push(s.indexFingerPositions, tip.value)) else s
  }

  // ---------------------------------------------------------------- phase 4

  /** A cut: a fingertip inside the fruit's rectangle, whether or not the fruit is spawned. */
  predicate IsCut(s: GameState, tip: Option<Point>)
  {
    tip.Some? && Hit(tip.value, s.fruitX, s.fruitY, s.fruitW, s.fruitH)
  }

  /**
   * On a cut: count it, move the fruit to a new position drawn from the
   * viable ranges as they stand, and load the new sprite.
   */
  function Cut(s: GameState, tip: Option<Point>, drawX: nat, drawY: nat, loaded: Size): (o: Outcome)
    ensures o.st.fruitCutCount == if IsCut(s, tip) then s.fruitCutCount + 1 else s.fruitCutCount
    ensures !IsCut(s, tip) ==> o == Outcome(s, false)
    ensures IsCut(s, tip) && !o.raised ==>
      Within(o.st.fruitX, s.viableXSpawn) && Within(o.st.fruitY, s.viableYSpawn) &&
      o.st.fruitW == loaded.w && o.st.fruitH == loaded.h
    ensures o.raised <==> IsCut(s, tip) && (Empty(s.viableXSpawn) || Empty(s.viableYSpawn))
    ensures o.raised && Empty(s.viableXSpawn) ==> o.st == s.(fruitCutCount := s.fruitCutCount + 1)
    ensures o.raised && !Empty(s.viableXSpawn) ==>
      Within(o.st.fruitX, s.viableXSpawn) &&
      o.st == s.(fruitCutCount := s.fruitCutCount + 1, fruitX := o.st.fruitX)
    ensures o.st.isFruitSpawned == s.isFruitSpawned
    ensures o.st.lastSpawnTime == s.lastSpawnTime && o.st.lastDisplayTime == s.lastDisplayTime
    ensures o.st.viableXSpawn == s.viableXSpawn && o.st.viableYSpawn == s.viableYSpawn
    ensures o.st.indexFingerPositions == s.indexFingerPositions
  {
    if IsCut(s, tip) then
      var s1 := s.(fruitCutCount := s.fruitCutCount + 1);
      match RandInt(s.viableXSpawn.lo, s.viableXSpawn.hi, drawX)
      case None => Outcome(s1, true)
      case Some(x) =>
        var s2 := s1.(fruitX := x);
        match RandInt(s.viableYSpawn.lo, s.viableYSpawn.hi, drawY)
        case None => Outcome(s2, true)
        case Some(y) => Outcome(s2.(fruitY := y, fruitW := loaded.w, fruitH := loaded.h), false)
    else
      Outcome(s, false)
  }

  /** Whether the fruit is spawned plays no part in the hit test or its effect on the score. */
  lemma CutIgnoresSpawnFlag(s: GameState, tip: Option<Point>, drawX: nat, drawY: nat, loaded: Size, b: bool)
    ensures IsCut(s.(isFruitSpawned := b), tip) == IsCut(s, tip)
    ensures Cut(s.(isFruitSpawned := b), tip, drawX, drawY, loaded).st.fruitCutCount
         == Cut(s, tip, drawX, drawY, loaded).st.fruitCutCount
  {
  }

  // ---------------------------------------------------------------- a frame

  /** The four phases of a frame in source order; an exception ends the frame. */
  function Step(s: GameState, i: TickInput): Outcome
  {
    var a := Spawn(s, i.now, i.spawnDrawX, i.spawnDrawY);
    if a.raised then a
    else
      var b := Display(a.st, i.now, i.frameW, i.frameH, i.expiryFruit);
      var c := Track(b, i.tip);
      Cut(c, i.tip, i.hitDrawX, i.hitDrawY, i.hitFruit)
  }

  /** A fruit spawned in a frame is never expired in that same frame. */
  lemma FreshSpawnNotExpired(s: GameState, i: TickInput)
    requires SpawnDue(s, i.now)
    ensures var a := Spawn(s, i.now, i.spawnDrawX, i.spawnDrawY);
      DisplayBranch(a.st, i.now, i.frameW, i.frameH) in {Shown, OffFrame}
  {
  }

  /**
   * The score rises by exactly one when the fingertip meets the rectangle
   * left by the first three phases, and is otherwise unchanged.
   */
  lemma {:induction false} StepScore(s: GameState, i: TickInput)
    ensures var a := Spawn(s, i.now, i.spawnDrawX, i.spawnDrawY);
      var c := Track(Display(a.st, i.now, i.frameW, i.frameH, i.expiryFruit), i.tip);
      Step(s, i).st.fruitCutCount ==
        if !a.raised && IsCut(c, i.tip) then s.fruitCutCount + 1 else s.fruitCutCount
  {
    var a := Spawn(s, i.now, i.spawnDrawX, i.spawnDrawY);
    if !a.raised {
      var b := Display(a.st, i.now, i.frameW, i.frameH, i.expiryFruit);
      var c := Track(b, i.tip);
      assert c.fruitCutCount == s.fruitCutCount;
    }
  }

  /**
   * What every reachable state satisfies: the track respects its capacity,
   * both timestamps are set together, and each viable range is symmetric
   * about the middle of the 1280 x 720 screen.
   */
  predicate Inv(s: GameState)
  {
    |s.indexFingerPositions| <= Capacity &&
    s.lastSpawnTime == s.lastDisplayTime &&
    s.viableXSpawn.lo + s.viableXSpawn.hi == ScreenWidth &&
    s.viableYSpawn.lo + s.viableYSpawn.hi == ScreenHeight
  }

  /** The start state is not spawned, has no score and an empty track, and satisfies the invariant. */
  lemma InitialInv(fruit: Size)
    ensures var s := Initial(fruit);
      Inv(s) && !s.isFruitSpawned && s.fruitCutCount == 0 && s.indexFingerPositions == []
  {
  }

  lemma {:induction false} StepInv(s: GameState, i: TickInput)
    requires Inv(s)
    ensures Inv(Step(s, i).st)
  {
    var a := Spawn(s, i.now, i.spawnDrawX, i.spawnDrawY);
    if !a.raised {
      var b := Display(a.st, i.now, i.frameW, i.frameH, i.expiryFruit);
      assert Inv(b) by {
        if DisplayBranch(a.st, i.now, i.frameW, i.frameH) == Expired {
          HalfSymmetric(i.expiryFruit.w, ScreenWidth);
          HalfSymmetric(i.expiryFruit.h, ScreenHeight);
        }
      }
      var c := Track(b, i.tip);
      if i.tip.Some? {
        PushBounded(b.indexFingerPositions, i.tip.value);
      }
    }
  }

  lemma HalfSymmetric(d: Dim, screen: int)
    ensures d / 2 + (screen - d / 2) == screen
  {
  }

  // ---------------------------------------------------------------- the loop

  /** One pass of `while True`: a captured frame (or not), its inputs, and the key read after it. */
  datatype Frame = Frame(success: bool, input: TickInput, key: int)

  /** Why the loop stopped: frames ran out, `q` was pressed, or an exception was raised. */
  datatype Exit = Exhausted | Quit | Raised

  datatype RunResult = RunResult(st: GameState, exit: Exit)

  /** The loop over a finite sequence of frames; a failed capture just goes round again. */
  function Run(s: GameState, frames: seq<Frame>): RunResult
    decreases |frames|
  {
    if frames == [] then RunResult(s, Exhausted)
    else if !frames[0].success then Run(s, frames[1..])
    else
      var o := Step(s, frames[0].input);
      if o.raised then RunResult(o.st, Raised)
      else if frames[0].key == QuitKey then RunResult(o.st, Quit)
      else Run(o.st, frames[1..])
  }

  /** Over any run the score never decreases and rises at most once per frame. */
  lemma {:induction false} RunScore(s: GameState, frames: seq<Frame>)
    ensures s.fruitCutCount <= Run(s, frames).st.fruitCutCount <= s.fruitCutCount + |frames|
    decreases |frames|
  {
    if frames != [] {
      if !frames[0].success {
        RunScore(s, frames[1..]);
      } else {
        var o := Step(s, frames[0].input);
        StepScore(s, frames[0].input);
        if !o.raised && frames[0].key != QuitKey {
          RunScore(o.st, frames[1..]);
        }
      }
    }
  }

  /** Every state a run reaches satisfies the invariant. */
  lemma {:induction false} RunInv(s: GameState, frames: seq<Frame>)
    requires Inv(s)
    ensures Inv(Run(s, frames).st)
    decreases |frames|
  {
    if frames != [] {
      if !frames[0].success {
        RunInv(s, frames[1..]);
      } else {
        var o := Step(s, frames[0].input);
        StepInv(s, frames[0].input);
        if !o.raised && frames[0].key != QuitKey {
          RunInv(o.st, frames[1..]);
        }
      }
    }
  }

  // ---------------------------------------------------------------- scenarios

  /**
   * A drawn position can lie inside the viable range and still fail the
   * bounds check, because the check reads it as a top-left corner: that
   * fruit is put back home and unspawned in the frame that spawned it.
   */
  lemma SpawnCanLeaveFrame()
    ensures var s := Initial(Size(100, 100));
      var i := TickInput(1000, 1280, 720, None, 1080, 0, Size(100, 100), 0, 0, Size(100, 100));
      var a := Spawn(s, i.now, i.spawnDrawX, i.spawnDrawY);
      !a.raised && a.st.fruitX == 1180 && Within(a.st.fruitX, s.viableXSpawn) &&
      !InBounds(a.st, i.frameW, i.frameH) &&
      Step(s, i) == Outcome(a.st.(fruitX := HomeX, fruitY := HomeY, isFruitSpawned := false), false)
  {
  }

  /**
   * A cut is counted while no fruit is spawned: the fingertip meets the
   * rectangle left at the home position.
   */
  lemma CutWhileNotSpawned()
    ensures var s := Initial(Size(100, 100));
      var i := TickInput(0, 1280, 720, Some(Point(HomeX, HomeY)), 0, 0, Size(100, 100), 0, 0, Size(80, 60));
      var o := Step(s, i);
      !s.isFruitSpawned && !o.st.isFruitSpawned && o.st.fruitCutCount == 1 && !o.raised
  {
  }

  /**
   * Spawn at 1 s, still shown at 1.5 s, expired at 3.6 s with the new
   * sprite's half-size ranges.
   */
  lemma SpawnShowExpire()
    ensures var s0 := Initial(Size(100, 100));
      var s1 := Step(s0, TickInput(1000, 1280, 720, None, 0, 0, Size(100, 100), 0, 0, Size(100, 100))).st;
      var s2 := Step(s1, TickInput(1500, 1280, 720, None, 0, 0, Size(100, 100), 0, 0, Size(100, 100))).st;
      var s3 := Step(s2, TickInput(3600, 1280, 720, None, 0, 0, Size(60, 80), 0, 0, Size(100, 100))).st;
      s1.isFruitSpawned && s1.fruitX == 100 && s1.fruitY == 100 && s1.lastDisplayTime == 1000 &&
      s2 == s1 &&
      !s3.isFruitSpawned && s3.fruitW == 60 && s3.fruitH == 80 &&
      s3.viableXSpawn == Range(30, 1250) && s3.viableYSpawn == Range(40, 680)
  {
  }

  // ---------------------------------------------------------------- the game in place

  /** The game's variables, updated in place frame by frame as the source does. */
  class Game {
    var isFruitSpawned: bool
    var lastSpawnTime: int
    var lastDisplayTime: int
    var fruitX: int
    var fruitY: int
    var fruitW: Dim
    var fruitH: Dim
    var viableXSpawn: Range
    var viableYSpawn: Range
    var fruitCutCount: nat
    var indexFingerPositions: seq<Point>

    function Model(): GameState
      reads this
    {
      GameState(isFruitSpawned, lastSpawnTime, lastDisplayTime, fruitX, fruitY, fruitW, fruitH,
                viableXSpawn, viableYSpawn, fruitCutCount, indexFingerPositions)
    }

    /** The set-up before the loop, for the first sprite loaded. */
    constructor (first: Size)
      ensures Model() == Initial(first) && Inv(Model())
    {
      indexFingerPositions := [];
      lastSpawnTime := 0;
      lastDisplayTime := 0;
      isFruitSpawned := false;
      fruitH, fruitW := first.h, first.w;
      fruitX, fruitY := HomeX, HomeY;
      viableXSpawn := Range(first.w, ScreenWidth - first.w);
      viableYSpawn := Range(first.h, ScreenHeight - first.h);
      fruitCutCount := 0;
    }

    method SpawnPhase(now: int, drawX: nat, drawY: nat) returns (raised: bool)
      modifies this
      ensures Outcome(Model(), raised) == Spawn(old(Model()), now, drawX, drawY)
    {
      raised := false;
      if now - lastSpawnTime >= FruitSpawnTime && !isFruitSpawned {
        lastSpawnTime := now;
        isFruitSpawned := true;
        lastDisplayTime := now;
        var x := RandInt(viableXSpawn.lo, viableXSpawn.hi, drawX);
        if x.None? {
          return true;
        }
        fruitX := x.value;
        var y := RandInt(viableYSpawn.lo, viableYSpawn.hi, drawY);
        if y.None? {
          return true;
        }
        fruitY := y.value;
      }
    }

    method DisplayPhase(now: int, frameW: int, frameH: int, loaded: Size)
      modifies this
      ensures Model() == Display(old(Model()), now, frameW, frameH, loaded)
    {
      if isFruitSpawned && now - lastDisplayTime <= FruitScreenTime {
        if (0 <= fruitX < frameW - fruitW) && (0 <= fruitY < frameH - fruitH) {
          // the sprite is blended into the frame; no variable changes
        } else {
          fruitX, fruitY := HomeX, HomeY;
          isFruitSpawned := false;
        }
      } else if isFruitSpawned && now - lastDisplayTime > FruitScreenTime {
        isFruitSpawned := false;
        fruitH, fruitW := loaded.h, loaded.w;
        viableXSpawn := Range(fruitW / 2, ScreenWidth - fruitW / 2);
        viableYSpawn := Range(fruitH / 2, ScreenHeight - fruitH / 2);
      }
    }

    method TrackPhase(tip: Option<Point>)
      modifies this
      ensures Model() == Track(old(Model()), tip)
    {
      if tip.Some? {
        indexFingerPositions := indexFingerPositions + [tip.value];
        if |indexFingerPositions| > Capacity {
          indexFingerPositions := indexFingerPositions[1..];
        }
      }
    }

    method CutPhase(tip: Option<Point>, drawX: nat, drawY: nat, loaded: Size) returns (raised: bool)
      modifies this
      ensures Outcome(Model(), raised) == Cut(old(Model()), tip, drawX, drawY, loaded)
    {
      raised := false;
      if tip.Some? {
        var p := tip.value;
        if (p.x >= fruitX && p.x <= fruitX + fruitW) && (p.y >= fruitY && p.y <= fruitY + fruitH) {
          fruitCutCount := fruitCutCount + 1;
          var x := RandInt(viableXSpawn.lo, viableXSpawn.hi, drawX);
          if x.None? {
            return true;
          }
          fruitX := x.value;
          var y := RandInt(viableYSpawn.lo, viableYSpawn.hi, drawY);
          if y.None? {
            return true;
          }
          fruitY := y.value;
          fruitH, fruitW := loaded.h, loaded.w;
        }
      }
    }

    /** One captured frame: the four phases in order, stopping at an exception. */
    method Tick(i: TickInput) returns (raised: bool)
      modifies this
      ensures Outcome(Model(), raised) == Step(old(Model()), i)
      ensures old(Inv(Model())) ==> Inv(Model())
    {
      if Inv(Model()) {
        StepInv(Model(), i);
      }
      raised := SpawnPhase(i.now, i.spawnDrawX, i.spawnDrawY);
      if raised {
        return;
      }
      DisplayPhase(i.now, i.frameW, i.frameH, i.expiryFruit);
      TrackPhase(i.tip);
      raised := CutPhase(i.tip, i.hitDrawX, i.hitDrawY, i.hitFruit);
    }

    /** The `while True` loop over a finite sequence of frames. */
    method Play(frames: seq<Frame>) returns (exit: Exit)
      modifies this
      ensures RunResult(Model(), exit) == Run(old(Model()), frames)
      ensures old(fruitCutCount) <= fruitCutCount <= old(fruitCutCount) + |frames|
    {
      RunScore(Model(), frames);
      var k := 0;
      while k < |frames|
        invariant 0 <= k <= |frames|
        invariant Run(Model(), frames[k..]) == Run(old(Model()), frames)
      {
        assert frames[k..][0] == frames[k] && frames[k..][1..] == frames[k + 1..];
        if frames[k].success {
          var raised := Tick(frames[k].input);
          if raised {
            return Raised;
          }
          if frames[k].key == QuitKey {
            return Quit;
          }
        }
        k := k + 1;
      }
      exit := Exhausted;
    }
  }
}
