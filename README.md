# AmazingPong gameplay engine in Dafny

This project models the gameplay engine of AmazingPong, a two-player XNA Pong game. The
model covers three classes:

- the paddle class `Player` and the `Ball` class: their fields, size getters, `Initialize`
  and their empty `Update`;
- the `GameplayScreen`, which on every active frame rebuilds nine hit boxes, classifies
  the ball's collision, and advances an eleven-state ball state machine;
- the screen's input handling, which moves the paddles from the keyboard and releases the
  ball on Enter.

The screen is a `class` holding the gameplay fields of the C# class, and its methods
change them in place. The fields left out are the content manager, the pause fade, the
font, the sounds, the music and the score-text positions.

Each method is proved against a pure function:

- Each ball method (`UpdateCollision`, `UpdateBall` and its parts, Enter's release, and the
  frame as a whole) is proved against a function over a `BallFrame` record. That record
  holds the ball's bookkeeping: the release flag, both states, the position, the
  collision count and speeds, both direction flags and both scores.
- `CreateCollisionBoxes` is proved against `CollisionBoxes`, which gives the nine
  rectangles as a `Hitboxes` record.
- The paddle moves of `UpdatePlayer` are proved against `PaddleMove` on a paddle's
  position.

The lemmas are stated about those functions.

Modules:

- `Xna` holds integer stand-ins for the framework types (`Vector2`, `Texture2D`,
  `Viewport`, `Rectangle`, `KeyboardState`), `Rectangle.Intersects` and `MathHelper.Clamp`.
- `PongPlayer` and `PongBall` hold the paddle and the ball.
- `BallRules` holds the pure rules:
  - the states and their families;
  - the first-match semantics of an if / else-if chain;
  - the displacement table of the state machine;
  - the serve that follows a `Disabled` ball;
  - the direction flags;
  - the speed-up;
  - the three hit zones of a paddle.
- `Gameplay` holds the hit boxes, the collision chain, the frame functions and the
  `GameplayScreen` class.

The screen's invariant `Valid` has two parts:

- the paddles are two objects that share one loaded sprite, and the ball's sprite is
  loaded;
- the bookkeeping is `Settled`:
  - `previousState` is never `Disabled`;
  - the two direction flags never both hold;
  - both speeds are equal and not negative;
  - both scores stay within 0..7;
  - while the ball is released, both scores are below 7.

The constructor establishes `Valid`. `Update` and `HandleInput` preserve it.

The model keeps these quirks of the code:

- Paddle 1's middle hit box takes its width from paddle 2's sprite.
- Paddle 2's lower clamp bound uses paddle 1's height.
- The bottom border's hit box starts at the viewport's bottom edge.
- The speed-up tests `collisionCount % 5 == 0`. Because the count restarts at 1, this is
  every fourth paddle hit (`SpeedRisesEveryFourHits`).

The hit zones take 3/7, 1/7 and 3/7 of the paddle by integer division. So they cover the
paddle without gaps only when its height is a multiple of 7 (`ZonesCoverPaddleIff`).

`UpdatePlayer` is split into `MovePaddle` (one paddle's keys and clamp) and `ReleaseBall`
(the Enter key). The C# code applies Enter between the key steps and the clamps, and W
before S. The split changes neither result: Enter touches only the release flag and the
scores, which the clamps do not read, and the two key steps add up the same in either
order. `UpdateBall` is split the same way:

- `AdvanceBall`: the release check, the state machine's move, and the `previousState`
  update;
- `ServeBall`: the `Disabled` case.

The switch's per-state moves are the table `BallRules.Displacement`.

## Model

| member | source | states |
|---|---|---|
| Xna.Clamp | Screens/GameplayScreen.cs:281-285 | the clamped value is at least the lower bound, at most the upper one when the bounds are ordered, and equals the value when it already lies between them |
| PongPlayer.Player.constructor | AmazingPong/AmazingPong/Player.cs:7-15 | a new paddle has no sprite, position (0, 0), is inactive and has score 0 |
| PongPlayer.Player.Initialize | AmazingPong/AmazingPong/Player.cs:27-34 | stores the sprite and position, activates the paddle and resets its score; Width and Height then read the sprite's size |
| PongPlayer.Player.Width | AmazingPong/AmazingPong/Player.cs:17-20 | the paddle's width is its sprite's width; it needs the sprite loaded |
| PongPlayer.Player.Height | AmazingPong/AmazingPong/Player.cs:22-25 | the paddle's height is its sprite's height; it needs the sprite loaded |
| PongPlayer.Player.Update | AmazingPong/AmazingPong/Player.cs:36-38 | changes nothing |
| PongBall.Ball.constructor | AmazingPong/AmazingPong/Ball.cs:7-13 | a new ball has no sprite, position (0, 0) and is inactive |
| PongBall.Ball.Initialize | AmazingPong/AmazingPong/Ball.cs:25-31 | stores the sprite and position and activates the ball; Width and Height then read the sprite's size |
| PongBall.Ball.Width | AmazingPong/AmazingPong/Ball.cs:15-18 | the ball's width is its sprite's width; it needs the sprite loaded |
| PongBall.Ball.Height | AmazingPong/AmazingPong/Ball.cs:20-23 | the ball's height is its sprite's height; it needs the sprite loaded |
| PongBall.Ball.Update | AmazingPong/AmazingPong/Ball.cs:33-35 | changes nothing |
| BallRules.FamiliesPartitionPlay | Screens/GameplayScreen.cs:352-367 | every in-play state belongs to exactly one of the two families the serve logic tests |
| BallRules.Targets | Screens/GameplayScreen.cs:456-531 | lists the states an else-if chain can set, one per test in order, in agreement with TargetAt |
| BallRules.Taken | Screens/GameplayScreen.cs:456-531 | the test an else-if chain stops at has every earlier guard false and its own guard true |
| BallRules.OnlyFirstMatchFires | Screens/GameplayScreen.cs:456-531 | a test of the chain fires (its guard holds, all earlier fail) exactly when it is the one the chain stops at |
| BallRules.FirstMatchIsTakenTest | Screens/GameplayScreen.cs:456-531 | the state the chain sets is the target of the test it stops at, and none when it runs off the end |
| BallRules.NoMatchIffNoGuard | Screens/GameplayScreen.cs:456-531 | the chain leaves the state alone if and only if no guard holds |
| BallRules.Displacement | Screens/GameplayScreen.cs:296-344 | paddle-1-side states move right by speedX and paddle-2-side states left; top zones move up, middle zones straight, bottom zones down; borders send the ball away from themselves; other states do not move |
| BallRules.ServeAfter | Screens/GameplayScreen.cs:346-372 | the point goes to player 1 exactly for a paddle-1-side previous state and to player 2 exactly for a paddle-2-side one; the serve goes towards the player who conceded, and towards paddle 2 on the first serve |
| BallRules.PointGoesToLastStriker | Screens/GameplayScreen.cs:346-372 | the scorer is the player the ball was moving away from in its last in-play state |
| BallRules.Heading | Screens/GameplayScreen.cs:389-404 | a paddle hit sets exactly one direction flag, forward exactly for paddle 1; any other state keeps the flags; the flags never both become true |
| BallRules.HeadingAgreesWithMotion | Screens/GameplayScreen.cs:389-404 | after a paddle hit, forward holds exactly when the ball moves right and backward exactly when it moves left |
| BallRules.SpeedUp | Screens/GameplayScreen.cs:406-412 | after the speed-up the count is never a multiple of 5; a multiple of 5 restarts the count at 1 and adds one to both speeds, anything else is kept |
| BallRules.SpeedRisesEveryFourHits | Screens/GameplayScreen.cs:406-412 | from a restarted count, n paddle hits leave the count at 1 + n % 4 and add n / 4 to both speeds |
| BallRules.ZonesStackInsidePaddle | Screens/GameplayScreen.cs:418-439 | the top, middle and bottom zones lie in that order inside the paddle and no two of them overlap, also when the middle zone has a width of its own |
| BallRules.ZonesCoverPaddleIff | Screens/GameplayScreen.cs:418-439 | the zones cover the paddle's whole height without gaps if and only if the height is a multiple of 7 |
| Gameplay.PaddleStep | Screens/GameplayScreen.cs:244-264 | a paddle steps down by 9 with only its down key held, up by 9 with only its up key held, and not at all otherwise |
| Gameplay.CollisionBoxes | Screens/GameplayScreen.cs:416-449 | each paddle's three zones share its left edge (paddle 1 one width in, paddle 2 two widths from the right), both middle zones take paddle 2's width, the zones lie within the paddle's height and no two of one paddle's zones overlap; the borders span the viewport at y = 0 and y = viewport height; the ball's box is its sprite at its position |
| Gameplay.CollisionChain | Screens/GameplayScreen.cs:456-531 | the twelve collision tests of UpdateCollision as a chain, in their order; CollisionTargets, CollisionTestOrder and CollisionChainOutcome state what it sets |
| Gameplay.CollisionTargets | Screens/GameplayScreen.cs:456-531 | the states the twelve tests set, in the order UpdateCollision tries them |
| Gameplay.CollisionTestOrder | Screens/GameplayScreen.cs:456-531 | the six paddle tests come before every other test, paddle 1's three before paddle 2's, the four border tests keep the ball in play, and the last two disable it |
| Gameplay.CollisionChainOutcome | Screens/GameplayScreen.cs:452-532 | the collision chain's outcome is the twelve nested tests of UpdateCollision, in their order |
| Gameplay.PaddleContactWins | Screens/GameplayScreen.cs:456-496 | the collision is a paddle hit exactly when the ball touches a paddle, and paddle 1's exactly when it touches paddle 1 |
| Gameplay.BorderKeepsDirection | Screens/GameplayScreen.cs:498-520 | without paddle contact, a ball touching a border while it has a direction bounces with the Right variant exactly when going forward and the Top variant exactly when touching the top border |
| Gameplay.LeavesFieldIff | Screens/GameplayScreen.cs:522-531 | the ball is disabled if and only if it touches no paddle, does not bounce and its X lies beyond either side of the viewport |
| Gameplay.NoCollisionIff | Screens/GameplayScreen.cs:452-532 | the state is left alone if and only if the ball touches no paddle, does not bounce and its X lies within the viewport |
| Gameplay.Classify | Screens/GameplayScreen.cs:452-532 | the count rises by one exactly on paddle contact, the new state is paddle 1's or paddle 2's hit accordingly, all other bookkeeping is unchanged, and Settled is preserved |
| Gameplay.Advance | Screens/GameplayScreen.cs:293-387 | before Enter nothing changes; a released ball in play moves by its displacement and keeps its state (now also the previous state), pace and scores; a released Disabled ball is re-centred at the starting pace, waits for Enter with both states equal, and at most one point is awarded; the direction flags never change |
| Gameplay.BallUpdate | Screens/GameplayScreen.cs:289-413 | afterwards the count is never a multiple of 5; an unreleased frame keeps position, states and scores; scores never fall and rise by at most one point in total; a released frame ends with previousState equal to currentState; a state other than Disabled is kept and the flags follow Heading; Settled is preserved |
| Gameplay.Tick | Screens/GameplayScreen.cs:231-239 | after a frame the count is never a multiple of 5, a frame before Enter leaves the ball's position, the release flag and the scores alone, and Settled is preserved |
| Gameplay.StartedBallMoves | Screens/GameplayScreen.cs:293-344 | a released ball in play moves by its state's displacement, keeps its state (which becomes the previous state) and the scores, and its pace changes only by SpeedUp |
| Gameplay.ServeAwardsLastStriker | Screens/GameplayScreen.cs:346-386 | a released Disabled ball gives one point to the player it moved away from, re-centres at the starting speed with count 1, waits for Enter, and is served towards the player who conceded |
| Gameplay.PaddleSendsBallAway | Screens/GameplayScreen.cs:456-496 | in a released frame with paddle contact, a ball touching paddle 1 moves right by speedX and is marked forward, otherwise it moves left and is marked backward |
| Gameplay.PaddleMove | Screens/GameplayScreen.cs:244-285 | a moved paddle keeps its X, its Y stays within the clamp bounds, and a step that stays within them is taken as is |
| Gameplay.PaddleCentreOnScreen | Screens/GameplayScreen.cs:280-285 | with equal paddle heights, the centre of a moved paddle lies on screen |
| Gameplay.HoldingDownReachesBottom | Screens/GameplayScreen.cs:261-285 | holding only the down key moves an on-screen paddle 9 per frame until its centre rests on the bottom edge |
| Gameplay.PressEnter | Screens/GameplayScreen.cs:266-278 | Enter releases the ball; it sets both scores to 0 when either player has 7 points and otherwise changes nothing else; both scores end below 7 when Settled held |
| Gameplay.GameplayScreen.constructor | Screens/GameplayScreen.cs:133-181 | a new screen is Valid with the ball Disabled, previousState unset, the game not started, no direction, zero speeds and count, no key held, and both paddles and the ball initialised at the given positions: active, holding their sprites, with the sprites' sizes |
| Gameplay.GameplayScreen.CreateCollisionBoxes | Screens/GameplayScreen.cs:416-449 | the nine hit boxes equal CollisionBoxes of the current positions and sprite sizes |
| Gameplay.GameplayScreen.UpdateCollision | Screens/GameplayScreen.cs:452-532 | currentState and collisionCount become those of Classify on the entry bookkeeping and the current hit boxes |
| Gameplay.GameplayScreen.UpdateBall | Screens/GameplayScreen.cs:289-413 | the screen's bookkeeping becomes BallUpdate of the entry bookkeeping |
| Gameplay.GameplayScreen.AdvanceBall | Screens/GameplayScreen.cs:293-387 | the screen's bookkeeping becomes Advance of the entry bookkeeping |
| Gameplay.GameplayScreen.ServeBall | Screens/GameplayScreen.cs:346-383 | the scorer of ServeAfter(previousState) gets one point, the ball is centred at the starting speed with count 1, the state becomes the serve state and the game waits for Enter |
| Gameplay.GameplayScreen.UpdatePlayer | Screens/GameplayScreen.cs:242-286 | each paddle ends at PaddleMove of its keys and clamp bounds, and the bookkeeping becomes PressEnter of the old one exactly when Enter is held |
| Gameplay.GameplayScreen.MovePaddle | Screens/GameplayScreen.cs:244-285 | one paddle ends at PaddleMove of its old position, keys and bounds |
| Gameplay.GameplayScreen.ReleaseBall | Screens/GameplayScreen.cs:266-278 | the bookkeeping becomes PressEnter of the old one |
| Gameplay.GameplayScreen.HandleInput | Screens/GameplayScreen.cs:538-564 | keeps Valid; a pause request changes nothing, otherwise the effect is UpdatePlayer's |
| Gameplay.GameplayScreen.PlayBall | Screens/GameplayScreen.cs:235-238 | the bookkeeping becomes Tick (Classify, then BallUpdate) of the entry bookkeeping and hit boxes, and stays Settled |
| Gameplay.GameplayScreen.Update | Screens/GameplayScreen.cs:220-240 | keeps Valid; an inactive screen changes nothing; an active one stores the keyboard state, rebuilds the hit boxes from the old positions and leaves the bookkeeping at Tick of the old bookkeeping |

## Left out

- Drawing (`Draw` of the screen, the paddle and the ball) and the score text are rendering only.
- LoadContent's asset loading is left out, as are the font, the sound effects, the music and `UnloadContent`. The sprites and the start positions that LoadContent computes from the viewport and its title-safe area become constructor parameters.
- Playing the bounce and score sounds is left out: it has no effect on the game state.
- The pause fade (`pauseAlpha`), the transition times and the base screen's `Update` belong to the screen framework.
- HandleInput's lookup of the controlling player's keyboard and gamepad, the gamepad-unplugged test, the null-input exception and pushing the pause menu are left out. The pause decision is the boolean `pauseRequested`.
- `Keyboard.GetState()` and the viewport query are framework calls. The key state and the viewport are parameters.
- XNA's `Vector2` holds floats. The model uses integers because every position in the game starts integral and changes by integral steps, so the `(int)` casts in CreateCollisionBoxes are the identity.
- C# 32-bit overflow of the scores, speeds and collision count is not modelled; integers are unbounded.
- `Rectangle.Intersects` is taken to be XNA's strict-overlap test, where edges that only touch do not intersect. `MathHelper.Clamp` is taken to cap at the maximum first and then raise to the minimum.
- The enum value 0 that previousState holds before the first serve is the extra constructor `Unset`.
- Reading Width or Height before Initialize throws a null-reference exception in C#. In the model those reads require the sprite to be loaded.
- Gameplay.GameplayScreen.HandleInput: the pause branch states that nothing in the game changes; the pause menu it opens is not modelled.
