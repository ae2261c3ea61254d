/** The play field, the two kinds of physics-backed entities (bats and the
    ball) and the rule by which a bat moves sideways. */
module Entities {
  import opened Wrappers

  /** The play field, built once from the viewport size and never changed. */
  datatype Arena = Arena(width: nat, height: nat)

  /** Centre of a physics body, as a JavaScript number pair. The start
      layout places bodies at half-pixel positions, so these are reals. */
  datatype Point = Point(x: real, y: real)

  /** One call of a bat's movement operations. */
  datatype Move = MoveLeft | MoveRight

  /** The bat's step: the integer part of 0.7% of the arena width,
      computed exactly (script.js multiplies by the float 0.007). */
  function MovementStep(arenaWidth: nat): (step: nat)
    ensures step * 1000 <= arenaWidth * 7 < (step + 1) * 1000
  {
    arenaWidth * 7 / 1000
  }

  /** Left edge of an unrotated rectangle of the given width centred at p.
      This is the physics engine's bounds.min.x for a bat's body, taken as
      an assumption about that engine. */
  function MinX(p: Point, width: int): real
  {
    p.x - width as real / 2.0
  }

  /** Right edge of the same rectangle. */
  function MaxX(p: Point, width: int): real
  {
    MinX(p, width) + width as real
  }

  /** The effect of moveRight on a bat's body: one step to the right when
      the left edge plus the width lies strictly inside the arena, checked
      before the move. */
  function MovedRight(body: Option<Point>, width: int, arenaWidth: int, step: int): (r: Option<Point>)
    ensures r.Some? <==> body.Some?
    ensures r.Some? ==> r.value.y == body.value.y
    ensures body.Some? && MaxX(body.value, width) < arenaWidth as real ==>
              r.value.x == body.value.x + step as real
    ensures body.Some? && MaxX(body.value, width) >= arenaWidth as real ==> r == body
    ensures body.Some? && r != body ==> MaxX(r.value, width) < arenaWidth as real + step as real
  {
    match body
    case None => None
    case Some(pos) =>
      if MinX(pos, width) + width as real < arenaWidth as real
      then Some(Point(pos.x + step as real, pos.y))
      else body
  }

  /** The effect of moveLeft on a bat's body: one step to the left when the
      left edge is strictly positive, checked before the move. */
  function MovedLeft(body: Option<Point>, width: int, step: int): (r: Option<Point>)
    ensures r.Some? <==> body.Some?
    ensures r.Some? ==> r.value.y == body.value.y
    ensures body.Some? && MinX(body.value, width) > 0.0 ==>
              r.value.x == body.value.x - step as real
    ensures body.Some? && MinX(body.value, width) <= 0.0 ==> r == body
    ensures body.Some? && r != body ==> MinX(r.value, width) > -(step as real)
  {
    match body
    case None => None
    case Some(pos) =>
      if MinX(pos, width) > 0.0
      then Some(Point(pos.x - step as real, pos.y))
      else body
  }

  /** A bat's body after one movement call. */
  function Moved(body: Option<Point>, m: Move, width: int, arenaWidth: int, step: int): Option<Point>
  {
    match m
    case MoveLeft => MovedLeft(body, width, step)
    case MoveRight => MovedRight(body, width, arenaWidth, step)
  }

  /** A bat's body after a sequence of movement calls, first call first. */
  function Run(body: Option<Point>, moves: seq<Move>, width: int, arenaWidth: int, step: int): Option<Point>
    decreases |moves|
  {
    if moves == [] then body
    else Run(Moved(body, moves[0], width, arenaWidth, step), moves[1..], width, arenaWidth, step)
  }

  /** The bat's bounding box lies inside the arena's horizontal extent. */
  predicate InBounds(p: Point, width: int, arenaWidth: int)
  {
    0.0 <= MinX(p, width) && MaxX(p, width) <= arenaWidth as real
  }

  /** The bat's bounding box sticks out of the arena by at most one step on
      either side. */
  predicate WithinOneStep(p: Point, width: int, arenaWidth: int, step: int)
  {
    -(step as real) <= MinX(p, width) && MaxX(p, width) <= arenaWidth as real + step as real
  }

  /** Any sequence of movement calls keeps the body present or absent as it
      was, keeps its height, and keeps it within one step of the arena. */
  lemma {:induction false} RunStaysWithinOneStep(body: Option<Point>, moves: seq<Move>, width: int, arenaWidth: int, step: nat)
    requires body.Some? ==> WithinOneStep(body.value, width, arenaWidth, step)
    ensures var r := Run(body, moves, width, arenaWidth, step);
      (r.Some? <==> body.Some?) &&
      (r.Some? ==> r.value.y == body.value.y && WithinOneStep(r.value, width, arenaWidth, step))
    decreases |moves|
  {
    if moves != [] {
      var next := Moved(body, moves[0], width, arenaWidth, step);
      RunStaysWithinOneStep(next, moves[1..], width, arenaWidth, step);
    }
  }

  /** From a position inside the arena, no sequence of movement calls takes
      the bat more than one step outside it. */
  lemma InBoundsRunStaysWithinOneStep(p: Point, moves: seq<Move>, width: int, arenaWidth: int, step: nat)
    requires InBounds(p, width, arenaWidth)
    ensures var r := Run(Some(p), moves, width, arenaWidth, step);
      r.Some? && r.value.y == p.y && WithinOneStep(r.value, width, arenaWidth, step)
  {
    RunStaysWithinOneStep(Some(p), moves, width, arenaWidth, step);
  }

  /** The check before the move lets the bat cross the right edge: in a
      1000-wide arena (step 7) a 300-wide bat whose left edge is at 696
      passes, and its right edge ends at 1003. */
  lemma RightEdgeOvershoot()
    ensures MovementStep(1000) == 7
    ensures InBounds(Point(846.0, 780.0), 300, 1000)
    ensures MovedRight(Some(Point(846.0, 780.0)), 300, 1000, 7) == Some(Point(853.0, 780.0))
    ensures !InBounds(Point(853.0, 780.0), 300, 1000)
  {
  }

  /** n calls of the same movement operation. */
  function Repeat(m: Move, n: nat): seq<Move>
  {
    if n == 0 then [] else [m] + Repeat(m, n - 1)
  }

  /** When the guard of the last of n moveRight calls still passes, the run
      moves the bat n full steps to the right. */
  lemma {:induction false} RunRightsUnblocked(p: Point, n: nat, width: int, arenaWidth: int, step: nat)
    requires n > 0 ==> MaxX(p, width) + (n - 1) as real * step as real < arenaWidth as real
    ensures Run(Some(p), Repeat(MoveRight, n), width, arenaWidth, step)
            == Some(Point(p.x + n as real * step as real, p.y))
    decreases n
  {
    if n > 0 {
      var q := Point(p.x + step as real, p.y);
      assert (n - 1) as real * step as real >= 0.0;
      assert MovedRight(Some(p), width, arenaWidth, step) == Some(q);
      assert Repeat(MoveRight, n)[1..] == Repeat(MoveRight, n - 1);
      assert n > 1 ==> (n - 2) as real * step as real + step as real == (n - 1) as real * step as real;
      RunRightsUnblocked(q, n - 1, width, arenaWidth, step);
      assert (n - 1) as real * step as real + step as real == n as real * step as real;
    }
  }

  /** In a 1000-wide arena (step 7), a 300-wide bat centred at x = 350 that
      takes 50 moveRight calls ends centred at 700, its left edge at 550,
      inside the arena. */
  lemma FiftyRightsFromStart()
    ensures Run(Some(Point(350.0, 780.0)), Repeat(MoveRight, 50), 300, 1000, MovementStep(1000))
            == Some(Point(700.0, 780.0))
    ensures MinX(Point(700.0, 780.0), 300) == 550.0
    ensures InBounds(Point(700.0, 780.0), 300, 1000)
  {
    RunRightsUnblocked(Point(350.0, 780.0), 50, 300, 1000, 7);
  }

  /** A paddle or fence: a static rectangle whose body is built by Draw and
      moved sideways by MoveLeft and MoveRight. */
  class Bat {
    const name: string // the body label
    const width: int
    const height: int
    const arena: Arena
    const movement: nat
    /** The property that Draw's guard reads. Nothing assigns it, so it is
        always undefined. */
    const bat: Option<Point> := None
    /** The physics body, reduced to its centre; None until drawn. */
    var body: Option<Point>

    constructor (name: string, width: int, height: int, arena: Arena)
      ensures this.name == name && this.width == width && this.height == height
      ensures this.arena == arena
      ensures movement == MovementStep(arena.width)
      ensures body == None
    {
      this.name := name;
      this.width := width;
      this.height := height;
      this.arena := arena;
      movement := MovementStep(arena.width);
      body := None;
    }

    /** Builds a body centred at coords. The guard tests the unassigned
        `bat` property rather than `body`, so every call replaces the body. */
    method Draw(coords: Point)
      modifies this`body
      ensures body == Some(coords)
    {
      if bat.None? {
        body := Some(coords);
      }
    }

    method MoveRight()
      modifies this`body
      ensures body == MovedRight(old(body), width, arena.width, movement)
    {
      if body.Some? {
        var pos := body.value;
        if MinX(pos, width) + width as real < arena.width as real {
          body := Some(Point(pos.x + movement as real, pos.y));
        }
      }
    }

    method MoveLeft()
      modifies this`body
      ensures body == MovedLeft(old(body), width, movement)
    {
      if body.Some? {
        var pos := body.value;
        if MinX(pos, width) > 0.0 {
          body := Some(Point(pos.x - movement as real, pos.y));
        }
      }
    }
  }

  /** The ball: a circle whose body is built by the first Draw only. */
  class Ball {
    const name: string // the body label
    const radius: int
    const arena: Arena
    /** The physics body, reduced to its centre; None until drawn. */
    var body: Option<Point>

    constructor (name: string, radius: int, arena: Arena)
      ensures this.name == name && this.radius == radius && this.arena == arena
      ensures body == None
    {
      this.name := name;
      this.radius := radius;
      this.arena := arena;
      body := None;
    }

    /** Builds a body centred at coords when none exists; otherwise keeps
        the existing one. */
    method Draw(coords: Point)
      modifies this`body
      ensures old(body) == None ==> body == Some(coords)
      ensures old(body) != None ==> body == old(body)
    {
      if body.None? {
        body := Some(coords);
      }
    }
  }
}
