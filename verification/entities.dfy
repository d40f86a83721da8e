/**
  Plain records of the runner: the canvas constants, rectangles for
  platforms and obstacles, the player, and the whole mutable world of
  main.js gathered into one immutable value.
 */
module Entities {

  /** Canvas size (main.js:4-5) and gravity (main.js:7). */
  const CanvasWidth: real := 800.0
  const CanvasHeight: real := 400.0
  const Gravity: real := 0.5

  /** The player's box is 48 by 48 (main.js:13-14). */
  const PlayerWidth: real := 48.0
  const PlayerHeight: real := 48.0

  /** Ticks per animation frame (main.js:21). */
  const AnimationSpeed: nat := 12

  /** The ground is the first platform: top 350, height 50 (main.js:31). */
  const GroundTop: real := 350.0
  const GroundHeight: real := 50.0

  /** The ground grows in steps of one canvas width (main.js:276). */
  const GroundStep: real := 800.0

  /** Horizontal speed set by the arrow keys (main.js:55, 58). */
  const RunSpeed: real := 5.0

  /** One value of Math.random(): a real in [0, 1). */
  type Unit = u: real | 0.0 <= u < 1.0

  /** The fill colour tag of a rectangle. */
  datatype Color = Green | Brown | Black | Red

  /** A platform or an obstacle, in screen coordinates. */
  datatype Rect = Rect(x: real, y: real, width: real, height: real, color: Color)

  /**
    The player record of main.js:10-25. Width and height never change and
    are the constants above; the texture is left out.
   */
  datatype Player = Player(
    x: real,
    y: real,
    dx: real,
    dy: real,
    jumping: bool,
    frameIndex: nat,
    frameTimer: nat,
    direction: int)

  /**
    The global state of main.js:10-44. `listening` records whether the
    click listener of main.js:205 has been registered; it is never removed.
   */
  datatype World = World(
    player: Player,
    platforms: seq<Rect>,
    obstacles: seq<Rect>,
    offsetX: real,
    spawnX: real,
    groundExtendX: real,
    score: real,
    gameOver: bool,
    listening: bool)

  /** An axis-aligned box by its four edges. */
  datatype Box = Box(left: real, top: real, right: real, bottom: real)

  function Bounds(r: Rect): Box {
    Box(r.x, r.y, r.x + r.width, r.y + r.height)
  }

  /** Strict overlap on all four sides: boxes that only touch do not overlap. */
  predicate Overlap(a: Box, b: Box) {
    a.left < b.right && b.left < a.right && a.top < b.bottom && b.top < a.bottom
  }

  /**
    The player's hit box used against platforms and obstacles: inset 5 on
    the left and right and 16 at the bottom, the top not inset.
   */
  function HitBox(p: Player): Box {
    Box(p.x + 5.0, p.y, p.x + PlayerWidth - 5.0, p.y + PlayerHeight - 16.0)
  }

  function Max(a: real, b: real): real {
    if a < b then b else a
  }
}
