/**
  The input handlers as pure updates of the world: the key handlers and
  the click handler with the hit tests of restartOrExit.
 */
module Input {
  import opened Entities
  import opened Session

  /** The key codes the handlers distinguish. */
  datatype Key = ArrowRight | ArrowLeft | Space | OtherKey

  /** The keydown handler: run right or left, or jump from the ground; nothing after game over. */
  function KeyDown(w: World, k: Key): (w': World)
    ensures w.gameOver ==> w' == w
    ensures k == OtherKey ==> w' == w
    ensures !w.gameOver && k == ArrowRight ==> w'.player.dx == RunSpeed && w'.player.direction == 1
    ensures !w.gameOver && k == ArrowLeft ==> w'.player.dx == -RunSpeed && w'.player.direction == -1
    ensures k == Space && w.player.jumping ==> w' == w
    ensures !w.gameOver && k == Space && !w.player.jumping ==>
      w'.player.dy == -12.0 && w'.player.jumping
    ensures k != Space ==> w'.player.dy == w.player.dy && w'.player.jumping == w.player.jumping
    ensures k == Space ==> w'.player.dx == w.player.dx && w'.player.direction == w.player.direction
    ensures w' == w.(player := w.player.(dx := w'.player.dx, dy := w'.player.dy,
                                         jumping := w'.player.jumping,
                                         direction := w'.player.direction))
  {
    var p := w.player;
    if k == ArrowRight && !w.gameOver then w.(player := p.(dx := RunSpeed, direction := 1))
    else if k == ArrowLeft && !w.gameOver then w.(player := p.(dx := -RunSpeed, direction := -1))
    else if k == Space && !p.jumping && !w.gameOver then w.(player := p.(dy := -12.0, jumping := true))
    else w
  }

  /** The keyup handler: releasing either arrow stops the player, game over or not. */
  function KeyUp(w: World, k: Key): (w': World)
    ensures k == ArrowRight || k == ArrowLeft ==> w'.player.dx == 0.0 && w'.player.direction == 0
    ensures k == Space || k == OtherKey ==> w' == w
    ensures w' == w.(player := w.player.(dx := w'.player.dx, direction := w'.player.direction))
  {
    if k == ArrowRight || k == ArrowLeft then w.(player := w.player.(dx := 0.0, direction := 0))
    else w
  }

  /** Key events keep every reachable world reachable. */
  lemma KeysKeepInv(w: World, k: Key)
    requires Inv(w)
    ensures Inv(KeyDown(w, k)) && Inv(KeyUp(w, k))
  {
  }

  /** Where a click on the canvas lands. */
  datatype Region = YesButton | NoButton | Elsewhere

  /** A point lies in the closed rectangle `r`, edges included. */
  predicate Inside(x: real, y: real, r: Rect) {
    r.x <= x <= r.x + r.width && r.y <= y <= r.y + r.height
  }

  /** The green "Yes" and red "No" buttons as gameOver draws them. */
  const YesRect: Rect := Rect(CanvasWidth / 2.0 - 150.0, CanvasHeight / 2.0, 100.0, 40.0, Green)
  const NoRect: Rect := Rect(CanvasWidth / 2.0 + 50.0, CanvasHeight / 2.0, 100.0, 40.0, Red)

  /** The hit tests of restartOrExit. */
  function Classify(x: real, y: real): (g: Region)
  {
    if x >= CanvasWidth / 2.0 - 150.0 && x <= CanvasWidth / 2.0 - 50.0 &&
       y >= CanvasHeight / 2.0 && y <= CanvasHeight / 2.0 + 40.0 then YesButton
    else if x >= CanvasWidth / 2.0 + 50.0 && x <= CanvasWidth / 2.0 + 150.0 &&
            y >= CanvasHeight / 2.0 && y <= CanvasHeight / 2.0 + 40.0 then NoButton
    else Elsewhere
  }

  /**
    The hit regions are exactly the drawn buttons, edges included, and the
    two buttons are apart, so a click fires at most one of them.
   */
  lemma ClassifyMatchesButtons(x: real, y: real)
    ensures Classify(x, y) == YesButton <==> Inside(x, y, YesRect)
    ensures Classify(x, y) == NoButton <==> Inside(x, y, NoRect)
    ensures !(Inside(x, y, YesRect) && Inside(x, y, NoRect))
  {
  }

  /** What a click does to the session. */
  datatype ClickResult = Stay(world: World) | CloseWindow

  /**
    The click listener: nothing before the first game over registers it;
    afterwards it restarts or closes on its buttons whether or not the
    game is over.
   */
  function Click(w: World, x: real, y: real): (r: ClickResult)
    ensures !w.listening ==> r == Stay(w)
    ensures w.listening && Inside(x, y, YesRect) ==> r == Stay(StartGame(w))
    ensures w.listening && Inside(x, y, NoRect) ==> r == CloseWindow
    ensures !Inside(x, y, YesRect) && !Inside(x, y, NoRect) ==> r == Stay(w)
  {
    if !w.listening then Stay(w)
    else
      match Classify(x, y)
      case YesButton => Stay(StartGame(w))
      case NoButton => CloseWindow
      case Elsewhere => Stay(w)
  }

  /** A click keeps the invariant. */
  lemma ClickKeepsInv(w: World, x: real, y: real)
    requires Inv(w)
    ensures Click(w, x, y).Stay? ==> Inv(Click(w, x, y).world)
  {
    StartGameInv(w);
  }
}
