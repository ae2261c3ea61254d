# pong-js game session, modelled in Dafny

This project models the game logic of a browser Pong game. Its physics and
rendering come from the Matter.js engine. A session holds:

- an **arena**: the play field's width and height, fixed at start-up;
- two **bats**: the player's `playerBat`, which moves sideways, and the
  computer's `compBat`, which stays put;
- two **fences**, `lFence` and `rFence`, built as bats;
- the **ball**.

The following session state is modelled:

- **Input tracker.** A table maps the arrow-key codes 37, 38, 39 and 40 to
  LEFT, UP, RIGHT and DOWN. `flipKey` sets the held flag of the mapped
  direction and ignores every other code.
- **Bat movement.** `moveLeft` and `moveRight` shift a drawn bat's centre by
  one integer step. Each move happens only when a strict boundary check
  passes, and the check runs *before* the move. The height never changes.
- **Lazy bodies.** The ball's `draw` builds a body only when none exists.
  The bat's `draw` tests a property that nothing assigns, so every call
  builds a new body.
- **Per-tick hooks.** The movement hook tries LEFT before RIGHT. The force
  hook chooses at most one impulse for the ball from the collision flags.
- **Collision bookkeeping.** A map from body label to flag. Contact start
  sets both labels of every reported pair. Contact end replaces the whole map
  with three false flags.

Files:

- `wrappers.dfy`: `Option`.
- `entities.dfy`, module `Entities`: `Arena` and `Point` values, the movement
  rule as functions, and the `Bat` and `Ball` classes. Their `body` field is
  what `draw`, `moveLeft` and `moveRight` change.
- `session.dfy`, module `Session`: the key table, the collision flags, the
  force choice and the `Game` class. `Game` models the `init` closure: its
  constructor does the start-up layout, and its methods are the key handler
  and the four engine hooks.

Modelling decisions:

- **Positions are `real`.** JavaScript numbers are not integers, and the
  start layout uses positions such as `(width - 300) / 2` and `height / 2`.
- **Left edge.** A bat's `bounds.min.x` is taken to be `x - width / 2`. This
  is the engine's value for an unrotated rectangle. It is an assumption about
  Matter.js; the engine itself is not modelled.
- **Step size.** The step `movement` is `floor(arena.width * 7 / 1000)`,
  computed exactly. script.js uses `parseInt(width * 0.007)`.
- **Force vectors.** Each force is an enum value, not a vector.
- **Key events.** `flipKey` takes an integer key code.
- **Handlers.** Each handler is one atomic step on the session state.

### Behaviour worth knowing

- **Redrawing a bat.** The guard at script.js:23 tests `this.bat`, which
  nothing assigns, so every call installs a new body at the given
  coordinates (`Entities.Bat.Draw`). The ball's guard at script.js:68 tests
  `this.body`, so only its first draw takes effect (`Entities.Ball.Draw`).
- **Bat bounds.** The check runs before the move, so a bat inside the arena
  can pass either edge by up to one step (`Entities.RightEdgeOvershoot`).
  `Entities.RunStaysWithinOneStep` proves the bound that always holds: within
  one step of the arena, for every sequence of moves.
- **Bitwise `&`.** The force hook combines flags with `&` (script.js:195,
  197). `Session.ChooseForce` is defined with that bitwise operation on the
  32-bit integer conversions of `true`, `false` and `undefined`. Its contract
  proves this equals logical conjunction, including for absent labels.

## Model

| member | source | states |
|---|---|---|
| `Entities.MovementStep` | script.js:19 | the bat's step is the integer part of 0.7% of the arena width |
| `Entities.MovedRight` | script.js:42-49 | no body stays no body; y is kept; x grows by one step exactly when left edge + width < arena width, else the body is unchanged; after a move the right edge is below arena width + step |
| `Entities.MovedLeft` | script.js:51-58 | no body stays no body; y is kept; x shrinks by one step exactly when the left edge > 0, else the body is unchanged; after a move the left edge is above -step |
| `Entities.RunStaysWithinOneStep` | script.js:42-58 | any sequence of moveLeft/moveRight calls keeps the body present or absent, keeps y, and keeps the bat within one step of the arena on both sides |
| `Entities.InBoundsRunStaysWithinOneStep` | script.js:42-58 | starting inside the arena, any sequence of moves leaves the bat drawn, at the same height and at most one step outside the arena |
| `Entities.RightEdgeOvershoot` | script.js:45-46 | arena 1000, bat 300 wide at x = 846 (inside): the guard passes and the right edge ends at 1003, outside the arena |
| `Entities.RunRightsUnblocked` | script.js:42-49 | when the guard still passes before the last of n moveRight calls, the bat ends n full steps to the right at the same height |
| `Entities.FiftyRightsFromStart` | script.js:42-49 | arena 1000, bat 300 wide centred at 350: after 50 moveRight calls it is centred at 700, left edge 550, inside the arena |
| `Entities.Bat.constructor` | script.js:13-20 | a new bat has no body and a step of MovementStep(arena width) |
| `Entities.Bat.Draw` | script.js:22-40 | every call, even on a drawn bat, installs a body at the given coordinates |
| `Entities.Bat.MoveRight` | script.js:42-49 | the body becomes MovedRight of the old body; nothing else changes |
| `Entities.Bat.MoveLeft` | script.js:51-58 | the body becomes MovedLeft of the old body; nothing else changes |
| `Entities.Ball.constructor` | script.js:60-65 | a new ball has no body |
| `Entities.Ball.Draw` | script.js:67-83 | builds a body at the coordinates only when none exists; an existing body is kept, so only the first call's coordinates take effect |
| `Session.KeyDirection` | script.js:105-110 | a code maps to a direction only when it is that direction's arrow-key code; every other code maps to nothing |
| `Session.KeyTableRoundTrip` | script.js:105-110 | looking up a direction's code gives that direction back |
| `Session.ChooseForce` | script.js:194-199 | defined with the bitwise `&`. PlayerForce exactly when playerBat and ball are flagged. Otherwise CompForce exactly when compBat and ball are flagged. Otherwise none. An absent label counts as false, so the empty state gives none |
| `Session.MarkedSpec` | script.js:207-214 | marking the pairs adds exactly the reported labels, sets each of them true, and leaves every other label's flag as it was |
| `Session.PlayerContactGivesPlayerForce` | script.js:193-214 | after a contact start reporting playerBat and ball, the force chosen is PlayerForce |
| `Session.ClearedHasNoContact` | script.js:216-222 | the reset state holds exactly playerBat, compBat and ball, all false; fence labels are absent; no force is chosen |
| `Session.Game.constructor` | script.js:97-183 | start-up: bats 300 wide, the player's step is MovementStep of the viewport width, the fences are labelled lFence and rFence; each body is drawn at its start position; all four keys are released; the collision state is empty |
| `Session.Game.FlipKey` | script.js:119-125 | the direction whose code is given takes the new state, the other three keep theirs, and an unmapped code changes nothing |
| `Session.Game.MovementTick` | script.js:185-191 | LEFT held: exactly moveLeft, even with RIGHT held. Only RIGHT held: moveRight. Neither: the player's bat is unchanged. Only the player's bat can change |
| `Session.Game.ForceTick` | script.js:193-204 | the impulse for this tick obeys the rules stated for ChooseForce, read from the current collision flags |
| `Session.Game.CollisionStart` | script.js:207-214 | both labels of every pair become true, no other label is added, and every other entry is unchanged |
| `Session.Game.CollisionEnd` | script.js:216-222 | the state becomes exactly {playerBat: false, compBat: false, ball: false}, whatever it held, so applying it twice gives the same result |

## Left out

- The Matter.js engine and renderer are not modelled: engine and render creation and running, adding bodies to the world, collision detection and integration (script.js:127-137, 170-173). `Bodies.rectangle`/`circle` and `Body.setPosition` are modelled only by their effect on a body's centre. `Body.applyForce` is modelled by the force that `Game.ForceTick` returns. The point where the force is applied (the player's bat) is not kept.
- DOM plumbing is not modelled: `DOMContentLoaded`, the keydown/keyup listeners, `e.which || e.keyCode`, and the viewport size, which the `Game` constructor takes as parameters (script.js:1, 102-103, 175-181).
- Entities.MovementStep: the JavaScript float product `width * 0.007` is taken as exact arithmetic, so float rounding in that product is not modelled.
- Body bounds: `bounds.min.x` comes from the engine. Here it is `x - width / 2` for an unrotated rectangle. Rotation is not modelled; the bats are static.
- Force vectors `{0.004, ±0.025}` and the float material properties (restitution, friction, frictionStatic, frictionAir) are not modelled: they are floating-point engine inputs with no effect on the session's logic.
- Render styling (fill, stroke, line width) and the `isStatic` flag are not modelled: they have no behaviour in this logic.
- Event dispatch order and timing between handlers are not modelled; each handler is one atomic step on the session state.
- Aliasing between a bat's or ball's body and the engine's world is not modelled: `body` holds only the body's centre.
