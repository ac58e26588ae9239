/**
 * The snake game of the full-screen overlay (src/components/overlays/SnakeGame.tsx).
 *
 * A 20x20 grid, a body of cells listed head first, one food cell, a pending
 * direction (dx, dy), a running score and a terminal game-over flag. One tick
 * checks the walls, then the pre-move body, then puts the new head in front
 * and either keeps the tail (food eaten) or drops it. The key handler turns the
 * snake only across the axis of the pending direction.
 */
module SnakeGame {

  import opened Options

  /** Cells per side of the square grid (`tileCount`). */
  const TileCount: int := 20

  /** Points for one food cell eaten. */
  const ScoreStep: int := 10

  datatype Cell = Cell(x: int, y: int)

  /** The cell lies on the board, `[0, 20) x [0, 20)`. */
  predicate InGrid(c: Cell) {
    0 <= c.x < TileCount && 0 <= c.y < TileCount
  }

  predicate AllInGrid(body: seq<Cell>) {
    forall i :: 0 <= i < |body| ==> InGrid(body[i])
  }

  predicate NoDuplicates(body: seq<Cell>) {
    forall i, j :: 0 <= i < j < |body| ==> body[i] != body[j]
  }

  /** A body the game can be in: at least the head, on the board, no cell twice. */
  predicate WellFormedBody(body: seq<Cell>) {
    |body| > 0 && AllInGrid(body) && NoDuplicates(body)
  }

  /** What the key handler can leave in (dx, dy): standing still or one unit step along an axis. */
  predicate IsDirection(dx: int, dy: int) {
    (dx == 0 && dy == 0) ||
    (dx == 0 && (dy == 1 || dy == -1)) ||
    (dy == 0 && (dx == 1 || dx == -1))
  }

  // ---------------------------------------------------------------------------
  // Food placement: Math.floor(Math.random() * tileCount), per coordinate.
  // ---------------------------------------------------------------------------

  /** One coordinate of the relocated food, from a random draw `r` in `[0, 1)`. */
  function RandomCoord(r: real): (c: int)
    requires 0.0 <= r < 1.0
    ensures 0 <= c < TileCount
    ensures c as real <= r * TileCount as real < c as real + 1.0
  {
    (r * TileCount as real).Floor
  }

  /** The relocated food cell, from two random draws in `[0, 1)`. */
  function RandomCell(rx: real, ry: real): (c: Cell)
    requires 0.0 <= rx < 1.0 && 0.0 <= ry < 1.0
    ensures InGrid(c)
  {
    Cell(RandomCoord(rx), RandomCoord(ry))
  }

  /** Every cell of the board can be drawn as the new food. */
  lemma RandomCellReachesEveryCell(c: Cell)
    requires InGrid(c)
    ensures 0.0 <= c.x as real / TileCount as real < 1.0
    ensures 0.0 <= c.y as real / TileCount as real < 1.0
    ensures RandomCell(c.x as real / TileCount as real, c.y as real / TileCount as real) == c
  {
  }

  /**
   * Food is placed with no look at the body: whatever the snake occupies, each
   * of its cells, the head included, is a possible new food cell.
   */
  lemma FoodMayLandOnBody(body: seq<Cell>, i: nat)
    requires WellFormedBody(body) && i < |body|
    ensures exists rx: real, ry: real ::
      0.0 <= rx < 1.0 && 0.0 <= ry < 1.0 && RandomCell(rx, ry) == body[i]
  {
    RandomCellReachesEveryCell(body[i]);
    var rx, ry := body[i].x as real / TileCount as real, body[i].y as real / TileCount as real;
    assert RandomCell(rx, ry) == body[i];
  }

  // ---------------------------------------------------------------------------
  // The body after one successful tick.
  // ---------------------------------------------------------------------------

  /**
   * Putting a fresh on-board head in front of a well-formed body, and dropping
   * the last cell unless the snake grows, gives a well-formed body again.
   */
  lemma StepKeepsBodyWellFormed(body: seq<Cell>, head: Cell, grow: bool)
    requires WellFormedBody(body)
    requires InGrid(head) && head !in body
    ensures WellFormedBody([head] + (if grow then body else body[..|body| - 1]))
  {
  }

  // ---------------------------------------------------------------------------
  // Direction keys.
  // ---------------------------------------------------------------------------

  /** The unit vector an arrow key asks for; every other key asks for nothing. */
  function KeyVector(key: string): (v: Option<(int, int)>)
    ensures v.Some? ==> IsDirection(v.value.0, v.value.1) && v.value != (0, 0)
    ensures v.Some? <==> key in {"ArrowUp", "ArrowDown", "ArrowLeft", "ArrowRight"}
  {
    if key == "ArrowUp" then Some((0, -1))
    else if key == "ArrowDown" then Some((0, 1))
    else if key == "ArrowLeft" then Some((-1, 0))
    else if key == "ArrowRight" then Some((1, 0))
    else None
  }

  function Dot(a: (int, int), b: (int, int)): int {
    a.0 * b.0 + a.1 * b.1
  }

  /**
   * The key handler: a vertical key needs `dy == 0`, a horizontal key needs
   * `dx == 0`; otherwise, and for every other key, (dx, dy) stays. Read
   * geometrically: an arrow key is taken exactly when the pending direction has
   * no component along the key's own axis.
   */
  function Steer(dx: int, dy: int, key: string): (d: (int, int))
    ensures KeyVector(key).None? ==> d == (dx, dy)
    ensures KeyVector(key).Some? ==>
      d == if Dot((dx, dy), KeyVector(key).value) == 0 then KeyVector(key).value else (dx, dy)
  {
    if key == "ArrowUp" then (if dy == 0 then (0, -1) else (dx, dy))
    else if key == "ArrowDown" then (if dy == 0 then (0, 1) else (dx, dy))
    else if key == "ArrowLeft" then (if dx == 0 then (-1, 0) else (dx, dy))
    else if key == "ArrowRight" then (if dx == 0 then (1, 0) else (dx, dy))
    else (dx, dy)
  }

  /** Steering keeps (dx, dy) at standstill or at a unit axis vector. */
  lemma SteerKeepsDirection(dx: int, dy: int, key: string)
    requires IsDirection(dx, dy)
    ensures IsDirection(Steer(dx, dy, key).0, Steer(dx, dy, key).1)
  {
  }

  /** One key never turns a moving snake straight back onto itself. */
  lemma SteerNeverReverses(dx: int, dy: int, key: string)
    requires IsDirection(dx, dy) && (dx, dy) != (0, 0)
    ensures Steer(dx, dy, key) != (-dx, -dy)
  {
  }

  /**
   * The guard looks at the pending direction, not at the last move: two keys
   * between ticks (up, then left, while moving right) do reverse it.
   */
  lemma TwoKeysCanReverse()
    ensures var up := Steer(1, 0, "ArrowUp"); Steer(up.0, up.1, "ArrowLeft") == (-1, 0)
  {
  }

  // ---------------------------------------------------------------------------
  // The game state.
  // ---------------------------------------------------------------------------

  class Game {
    /** The body, head first (`snake`). */
    var snake: seq<Cell>
    var food: Cell
    var dx: int
    var dy: int
    /** The running score (`currentScore`, mirrored into `score`). */
    var score: int
    var gameOver: bool

    /**
     * The invariant every tick and key keeps: a well-formed body, food on the
     * board, a unit or zero direction, and ten points for every cell grown.
     */
    ghost predicate Valid()
      reads this
    {
      WellFormedBody(snake) && InGrid(food) && IsDirection(dx, dy) &&
      score == ScoreStep * (|snake| - 1)
    }

    /** The cell the head moves into on the next tick. */
    function NextHead(): Cell
      reads this
      requires |snake| > 0
    {
      Cell(snake[0].x + dx, snake[0].y + dy)
    }

    /** The state set up when the game starts. */
    constructor ()
      ensures Valid()
      ensures snake == [Cell(10, 10)] && food == Cell(15, 15)
      ensures dx == 0 && dy == 0 && score == 0 && !gameOver
    {
      snake := [Cell(10, 10)];
      food := Cell(15, 15);
      dx, dy := 0, 0;
      score := 0;
      gameOver := false;
    }

    /**
     * One tick of `drawGame`. `rx` and `ry` are the two `Math.random()` draws
     * used only when food is eaten.
     */
    method Tick(rx: real, ry: real)
      requires Valid()
      requires 0.0 <= rx < 1.0 && 0.0 <= ry < 1.0
      modifies this
      ensures Valid()
      ensures dx == old(dx) && dy == old(dy)
      // A finished game stays as it is.
      ensures old(gameOver) ==>
        gameOver && snake == old(snake) && food == old(food) && score == old(score)
      // Standing still runs the head into itself.
      ensures !old(gameOver) && old(dx) == 0 && old(dy) == 0 ==>
        gameOver && snake == old(snake)
      // A wall or any pre-move body cell, the tail included, ends the game.
      ensures !old(gameOver) && (!InGrid(old(NextHead())) || old(NextHead()) in old(snake)) ==>
        gameOver && snake == old(snake) && food == old(food) && score == old(score)
      // Otherwise the snake moves: new head in front, tail dropped unless it ate.
      ensures !old(gameOver) && InGrid(old(NextHead())) && old(NextHead()) !in old(snake) ==>
        var head, ate := old(NextHead()), old(NextHead()) == old(food);
        && !gameOver
        && snake == [head] + (if ate then old(snake) else old(snake)[..|old(snake)| - 1])
        && |snake| == |old(snake)| + (if ate then 1 else 0)
        && score == old(score) + (if ate then ScoreStep else 0)
        && food == (if ate then RandomCell(rx, ry) else old(food))
    {
      if gameOver {
        return;
      }
      var head := Cell(snake[0].x + dx, snake[0].y + dy);
      if head.x < 0 || head.x >= TileCount || head.y < 0 || head.y >= TileCount {
        gameOver := true;
        return;
      }
      if head in snake {
        gameOver := true;
        return;
      }
      var ate := head == food;
      StepKeepsBodyWellFormed(snake, head, ate);
      snake := [head] + snake;
      if ate {
        score := score + ScoreStep;
        food := RandomCell(rx, ry);
      } else {
        snake := snake[..|snake| - 1];
      }
    }

    /** `handleKeyPress`: the direction becomes what the anti-reversal guard admits. */
    method Key(key: string)
      requires Valid()
      modifies this
      ensures Valid()
      ensures (dx, dy) == Steer(old(dx), old(dy), key)
      ensures snake == old(snake) && food == old(food) && score == old(score)
      ensures gameOver == old(gameOver)
    {
      SteerKeepsDirection(dx, dy, key);
      match key
      case "ArrowUp" =>
        if dy == 0 { dx, dy := 0, -1; }
      case "ArrowDown" =>
        if dy == 0 { dx, dy := 0, 1; }
      case "ArrowLeft" =>
        if dx == 0 { dx, dy := -1, 0; }
      case "ArrowRight" =>
        if dx == 0 { dx, dy := 1, 0; }
      case _ =>
    }
  }

  // ---------------------------------------------------------------------------
  // Whole games played through the class.
  // ---------------------------------------------------------------------------

  /** Before any arrow key the first tick ends the game and the snake stays put. */
  method FirstTickWithoutKeyEndsGame() returns (over: bool, body: seq<Cell>, points: int)
    ensures over && body == [Cell(10, 10)] && points == 0
  {
    var g := new Game();
    g.Tick(0.5, 0.5);
    over, body, points := g.gameOver, g.snake, g.score;
  }

  /**
   * From the start, heading right for five ticks brings the head to (15, 10);
   * that is not the food at (15, 15), so nothing grows or scores.
   */
  method FiveTicksRight() returns (over: bool, body: seq<Cell>, points: int, meal: Cell)
    ensures !over && body == [Cell(15, 10)] && points == 0 && meal == Cell(15, 15)
  {
    var g := new Game();
    g.Key("ArrowRight");
    g.Tick(0.0, 0.0);
    g.Tick(0.0, 0.0);
    g.Tick(0.0, 0.0);
    g.Tick(0.0, 0.0);
    g.Tick(0.0, 0.0);
    over, body, points, meal := g.gameOver, g.snake, g.score, g.food;
  }

  /** Down five cells, then right four: the head stops next to the food at (15, 15). */
  method WalkToFood(g: Game)
    requires g.Valid() && !g.gameOver
    requires g.snake == [Cell(10, 10)] && g.food == Cell(15, 15) && g.dx == 0 && g.dy == 0
    modifies g
    ensures g.Valid() && !g.gameOver
    ensures g.snake == [Cell(14, 15)] && g.food == Cell(15, 15) && g.dx == 1 && g.dy == 0
  {
    g.Key("ArrowDown");
    g.Tick(0.0, 0.0); g.Tick(0.0, 0.0); g.Tick(0.0, 0.0); g.Tick(0.0, 0.0); g.Tick(0.0, 0.0);
    g.Key("ArrowRight");
    g.Tick(0.0, 0.0); g.Tick(0.0, 0.0); g.Tick(0.0, 0.0); g.Tick(0.0, 0.0);
  }

  /** Three meals in a row, each new food drawn one cell further right. */
  method EatThree(g: Game)
    requires g.Valid() && !g.gameOver
    requires g.snake == [Cell(14, 15)] && g.food == Cell(15, 15) && g.dx == 1 && g.dy == 0
    modifies g
    ensures g.Valid() && !g.gameOver && g.dx == 1 && g.dy == 0
    ensures g.snake == [Cell(17, 15), Cell(16, 15), Cell(15, 15), Cell(14, 15)]
    ensures g.score == 30 && g.food == Cell(0, 0)
  {
    g.Tick(0.8, 0.75);    // eats (15, 15); the next food is (16, 15)
    g.Tick(0.85, 0.75);   // eats (16, 15); the next food is (17, 15)
    g.Tick(0.0, 0.0);     // eats (17, 15); the next food is (0, 0)
  }

  /** Up, left, then down: the last move aims at the cell the tail still holds. */
  method CurlIntoTail(g: Game)
    requires g.Valid() && !g.gameOver && g.dx == 1 && g.dy == 0
    requires g.snake == [Cell(17, 15), Cell(16, 15), Cell(15, 15), Cell(14, 15)]
    requires g.food == Cell(0, 0)
    modifies g
    ensures g.Valid() && g.gameOver
    ensures g.snake == [Cell(16, 14), Cell(17, 14), Cell(17, 15), Cell(16, 15)]
  {
    g.Key("ArrowUp");
    g.Tick(0.0, 0.0);
    assert g.snake == [Cell(17, 14), Cell(17, 15), Cell(16, 15), Cell(15, 15)];
    g.Key("ArrowLeft");
    g.Tick(0.0, 0.0);
    assert g.snake[3] == Cell(16, 15);
    g.Key("ArrowDown");
    g.Tick(0.0, 0.0);     // (16, 15) is the tail cell
  }

  /**
   * The cell the tail is about to leave still counts as occupied: after growing
   * to four cells, the snake curls round and runs into its own last cell.
   */
  method TailChaseEndsGame() returns (over: bool, body: seq<Cell>, points: int)
    ensures over && points == 30
    ensures body == [Cell(16, 14), Cell(17, 14), Cell(17, 15), Cell(16, 15)]
  {
    var g := new Game();
    WalkToFood(g);
    EatThree(g);
    CurlIntoTail(g);
    over, body, points := g.gameOver, g.snake, g.score;
  }
}
