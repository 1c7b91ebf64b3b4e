/**
 * The gameplay screen: two paddles, the ball, and the per-frame engine that rebuilds the
 * hit boxes, classifies the ball's collisions, advances the ball state machine and moves
 * the paddles from the keyboard.
 */
module Gameplay {
  import opened Wrappers
  import opened Xna
  import opened BallRules
  import opened PongPlayer
  import opened PongBall

  /** Starting speed of the ball on both axes. */
  const startingSpeed: int := 7
  /** How far a paddle moves per frame while its key is held. */
  const playerSpeed: int := 9
  /** Number of points that wins a match. */
  const playerScoreWin: int := 7

  /** The vertical step of a paddle for one frame: down adds, up subtracts. */
  function PaddleStep(down: bool, up: bool): (dy: int)
    ensures down == up ==> dy == 0
    ensures down && !up ==> dy == playerSpeed
    ensures up && !down ==> dy == -playerSpeed
  {
    (if down then playerSpeed else 0) - (if up then playerSpeed else 0)
  }

  /** The screen's nine hit boxes: three zones per paddle, the two borders and the ball. */
  datatype Hitboxes = Hitboxes(
    player1Top: Rectangle, player1Mid: Rectangle, player1Bottom: Rectangle,
    player2Top: Rectangle, player2Mid: Rectangle, player2Bottom: Rectangle,
    bottomBorder: Rectangle, topBorder: Rectangle, ballRectangle: Rectangle)

  /**
   * The hit boxes CreateCollisionBoxes builds. Paddle 1 stands one paddle width in from the
   * left edge and paddle 2 two paddle widths in from the right edge; each is split into
   * its three zones (paddle 1's middle zone taking its width from paddle 2's sprite). The
   * ball's box is its sprite at its position; the borders span the viewport's width, the
   * top one from y = 0 and the bottom one from the viewport's bottom edge downwards.
   */
  function CollisionBoxes(viewport: Viewport, borderHeight: nat,
                          y1: int, width1: nat, height1: nat,
                          y2: int, width2: nat, height2: nat,
                          ballPosition: Vector2, ballWidth: nat, ballHeight: nat): (r: Hitboxes)
    ensures r.player1Top.X == r.player1Mid.X == r.player1Bottom.X == width1
    ensures r.player2Top.X == r.player2Mid.X == r.player2Bottom.X == viewport.Width - width2 * 2
    ensures r.player1Mid.Width == width2 && r.player2Mid.Width == width2
    ensures r.player1Top.Y == y1 && r.player1Bottom.Y + r.player1Bottom.Height <= y1 + height1
    ensures r.player2Top.Y == y2 && r.player2Bottom.Y + r.player2Bottom.Height <= y2 + height2
    ensures !Intersects(r.player1Top, r.player1Mid) && !Intersects(r.player1Mid, r.player1Bottom) &&
            !Intersects(r.player1Top, r.player1Bottom)
    ensures !Intersects(r.player2Top, r.player2Mid) && !Intersects(r.player2Mid, r.player2Bottom) &&
            !Intersects(r.player2Top, r.player2Bottom)
    ensures r.topBorder == Rectangle(0, 0, viewport.Width, borderHeight)
    ensures r.bottomBorder == Rectangle(0, viewport.Height, viewport.Width, borderHeight)
    ensures r.ballRectangle == Rectangle(ballPosition.X, ballPosition.Y, ballWidth, ballHeight)
  {
    var x2 := viewport.Width - width2 * 2;
    ZonesStackInsidePaddle(width1, width1, width2, y1, height1);
    ZonesStackInsidePaddle(x2, width2, width2, y2, height2);
    Hitboxes(ZoneRect(width1, width1, y1, height1, Top),
             ZoneRect(width1, width2, y1, height1, Mid),
             ZoneRect(width1, width1, y1, height1, Bottom),
             ZoneRect(x2, width2, y2, height2, Top),
             ZoneRect(x2, width2, y2, height2, Mid),
             ZoneRect(x2, width2, y2, height2, Bottom),
             Rectangle(0, viewport.Height, viewport.Width, borderHeight),
             Rectangle(0, 0, viewport.Width, borderHeight),
             Rectangle(ballPosition.X, ballPosition.Y, ballWidth, ballHeight))
  }

  /**
   * The collision tests of UpdateCollision in their priority order: paddle 1's mid, top
   * and bottom zones, paddle 2's mid, top and bottom zones, the top border while going
   * forward and backward, the bottom border while going forward and backward, and the
   * ball's left edge past the right or the left side of the viewport.
   */
  function CollisionChain(h: Hitboxes, forward: bool, backward: bool, ballX: int, viewportWidth: int): Chain
  {
    var b := h.ballRectangle;
    Test(Intersects(b, h.player1Mid), HitMidPlayer1,
    Test(Intersects(b, h.player1Top), HitTopPlayer1,
    Test(Intersects(b, h.player1Bottom), HitBottomPlayer1,
    Test(Intersects(b, h.player2Mid), HitMidPlayer2,
    Test(Intersects(b, h.player2Top), HitTopPlayer2,
    Test(Intersects(b, h.player2Bottom), HitBottomPlayer2,
    Test(Intersects(b, h.topBorder) && forward, HitTopBorderRight,
    Test(Intersects(b, h.topBorder) && backward, HitTopBorderLeft,
    Test(Intersects(b, h.bottomBorder) && forward, HitBottomBorderRight,
    Test(Intersects(b, h.bottomBorder) && backward, HitBottomBorderLeft,
    Test(ballX > viewportWidth, Disabled,
    Test(ballX < 0, Disabled,
    Otherwise))))))))))))
  }

  /** The targets of the twelve tests, in the order UpdateCollision tries them. */
  lemma CollisionTargets(h: Hitboxes, forward: bool, backward: bool, ballX: int, viewportWidth: int)
    ensures Targets(CollisionChain(h, forward, backward, ballX, viewportWidth)) ==
      [HitMidPlayer1, HitTopPlayer1, HitBottomPlayer1, HitMidPlayer2, HitTopPlayer2, HitBottomPlayer2,
       HitTopBorderRight, HitTopBorderLeft, HitBottomBorderRight, HitBottomBorderLeft, Disabled, Disabled]
  {
    var c := CollisionChain(h, forward, backward, ballX, viewportWidth);
    var tail := c.orElse.orElse.orElse.orElse.orElse.orElse;
    assert Targets(tail.orElse.orElse.orElse.orElse.orElse.orElse) == [];
    assert Targets(tail.orElse.orElse.orElse.orElse.orElse) == [Disabled];
    assert Targets(tail.orElse.orElse.orElse.orElse) == [Disabled, Disabled];
    assert Targets(tail.orElse.orElse.orElse) == [HitBottomBorderLeft, Disabled, Disabled];
    assert Targets(tail.orElse.orElse) == [HitBottomBorderRight, HitBottomBorderLeft, Disabled, Disabled];
    assert Targets(tail.orElse) == [HitTopBorderLeft, HitBottomBorderRight, HitBottomBorderLeft, Disabled, Disabled];
    assert Targets(tail) == [HitTopBorderRight, HitTopBorderLeft, HitBottomBorderRight, HitBottomBorderLeft, Disabled, Disabled];
    assert Targets(c.orElse.orElse.orElse.orElse.orElse) == [HitBottomPlayer2] + Targets(tail);
    assert Targets(c.orElse.orElse.orElse.orElse) == [HitTopPlayer2, HitBottomPlayer2] + Targets(tail);
    assert Targets(c.orElse.orElse.orElse) == [HitMidPlayer2, HitTopPlayer2, HitBottomPlayer2] + Targets(tail);
    assert Targets(c.orElse.orElse) == [HitBottomPlayer1, HitMidPlayer2, HitTopPlayer2, HitBottomPlayer2] + Targets(tail);
    assert Targets(c.orElse) == [HitTopPlayer1, HitBottomPlayer1, HitMidPlayer2, HitTopPlayer2, HitBottomPlayer2] + Targets(tail);
    assert Targets(c) == [HitMidPlayer1, HitTopPlayer1, HitBottomPlayer1, HitMidPlayer2, HitTopPlayer2, HitBottomPlayer2] + Targets(tail);
  }

  /**
   * The order of the twelve tests: the six paddle zones come first, paddle 1's three
   * before paddle 2's, then the four border tests, and the last two take the ball out
   * of play.
   */
  lemma CollisionTestOrder(h: Hitboxes, forward: bool, backward: bool, ballX: int, viewportWidth: int)
    ensures var ts := Targets(CollisionChain(h, forward, backward, ballX, viewportWidth));
      |ts| == 12 &&
      (forall i :: 0 <= i < 12 ==> (IsPaddleHit(ts[i]) <==> i < 6)) &&
      (forall i :: 0 <= i < 6 ==> (IsPlayer1Hit(ts[i]) <==> i < 3)) &&
      (forall i :: 6 <= i < 10 ==> InPlay(ts[i])) &&
      ts[10] == ts[11] == Disabled
  {
    CollisionTargets(h, forward, backward, ballX, viewportWidth);
  }

  /** The outcome of the collision chain written out as the nested tests it stands for. */
  lemma CollisionChainOutcome(h: Hitboxes, forward: bool, backward: bool, ballX: int, viewportWidth: int)
    ensures var b := h.ballRectangle;
      FirstMatch(CollisionChain(h, forward, backward, ballX, viewportWidth)) ==
        if Intersects(b, h.player1Mid) then Some(HitMidPlayer1)
        else if Intersects(b, h.player1Top) then Some(HitTopPlayer1)
        else if Intersects(b, h.player1Bottom) then Some(HitBottomPlayer1)
        else if Intersects(b, h.player2Mid) then Some(HitMidPlayer2)
        else if Intersects(b, h.player2Top) then Some(HitTopPlayer2)
        else if Intersects(b, h.player2Bottom) then Some(HitBottomPlayer2)
        else if Intersects(b, h.topBorder) && forward then Some(HitTopBorderRight)
        else if Intersects(b, h.topBorder) && backward then Some(HitTopBorderLeft)
        else if Intersects(b, h.bottomBorder) && forward then Some(HitBottomBorderRight)
        else if Intersects(b, h.bottomBorder) && backward then Some(HitBottomBorderLeft)
        else if ballX > viewportWidth then Some(Disabled)
        else if ballX < 0 then Some(Disabled)
        else None
  {
    var rest := CollisionChain(h, forward, backward, ballX, viewportWidth);
    FirstMatchStep(rest); rest := rest.orElse;
    FirstMatchStep(rest); rest := rest.orElse;
    FirstMatchStep(rest); rest := rest.orElse;
    FirstMatchStep(rest); rest := rest.orElse;
    FirstMatchStep(rest); rest := rest.orElse;
    FirstMatchStep(rest); rest := rest.orElse;
    FirstMatchStep(rest); rest := rest.orElse;
    FirstMatchStep(rest); rest := rest.orElse;
    FirstMatchStep(rest); rest := rest.orElse;
    FirstMatchStep(rest); rest := rest.orElse;
    FirstMatchStep(rest); rest := rest.orElse;
    FirstMatchStep(rest); rest := rest.orElse;
  }

  /** The ball touches one of paddle 1's three zones. */
  predicate TouchesPaddle1(h: Hitboxes)
  {
    Intersects(h.ballRectangle, h.player1Top) || Intersects(h.ballRectangle, h.player1Mid) ||
    Intersects(h.ballRectangle, h.player1Bottom)
  }

  /** The ball touches one of paddle 2's three zones. */
  predicate TouchesPaddle2(h: Hitboxes)
  {
    Intersects(h.ballRectangle, h.player2Top) || Intersects(h.ballRectangle, h.player2Mid) ||
    Intersects(h.ballRectangle, h.player2Bottom)
  }

  /** The ball touches a border while it has a direction to bounce in. */
  predicate Bounces(h: Hitboxes, forward: bool, backward: bool)
  {
    (Intersects(h.ballRectangle, h.topBorder) || Intersects(h.ballRectangle, h.bottomBorder)) &&
    (forward || backward)
  }

  /**
   * A paddle contact always wins over the borders and the field's edges, and paddle 1 is
   * tested before paddle 2: the collision is a paddle hit exactly when the ball touches a
   * paddle, and it is paddle 1's exactly when the ball touches paddle 1.
   */
  lemma PaddleContactWins(h: Hitboxes, forward: bool, backward: bool, ballX: int, viewportWidth: int)
    ensures var m := FirstMatch(CollisionChain(h, forward, backward, ballX, viewportWidth));
      (TouchesPaddle1(h) || TouchesPaddle2(h)) ==>
        m.Some? && IsPaddleHit(m.value) && (IsPlayer1Hit(m.value) <==> TouchesPaddle1(h))
    ensures var m := FirstMatch(CollisionChain(h, forward, backward, ballX, viewportWidth));
      m.Some? && IsPaddleHit(m.value) ==> TouchesPaddle1(h) || TouchesPaddle2(h)
  {
    CollisionChainOutcome(h, forward, backward, ballX, viewportWidth);
  }

  /**
   * Without a paddle contact, a ball touching a border while it has a direction bounces
   * off it and keeps its horizontal direction: the Right variant exactly when it was going
   * forward, and the top variant exactly when it touches the top border.
   */
  lemma BorderKeepsDirection(h: Hitboxes, forward: bool, backward: bool, ballX: int, viewportWidth: int)
    requires !TouchesPaddle1(h) && !TouchesPaddle2(h) && Bounces(h, forward, backward)
    requires !(forward && backward)
    ensures var m := FirstMatch(CollisionChain(h, forward, backward, ballX, viewportWidth));
      m.Some? && InPlay(m.value) && !IsPaddleHit(m.value) &&
      (Player1Family(m.value) <==> forward) &&
      (m.value in {HitTopBorderRight, HitTopBorderLeft} <==> Intersects(h.ballRectangle, h.topBorder))
  {
    CollisionChainOutcome(h, forward, backward, ballX, viewportWidth);
  }

  /**
   * The ball is taken out of play exactly when it touches no paddle, does not bounce, and
   * its left edge lies beyond either side of the viewport.
   */
  lemma LeavesFieldIff(h: Hitboxes, forward: bool, backward: bool, ballX: int, viewportWidth: int)
    ensures FirstMatch(CollisionChain(h, forward, backward, ballX, viewportWidth)) == Some(Disabled) ==>
      !TouchesPaddle1(h) && !TouchesPaddle2(h) && !Bounces(h, forward, backward) &&
      (ballX > viewportWidth || ballX < 0)
    ensures (!TouchesPaddle1(h) && !TouchesPaddle2(h) && !Bounces(h, forward, backward) &&
             (ballX > viewportWidth || ballX < 0)) ==>
      FirstMatch(CollisionChain(h, forward, backward, ballX, viewportWidth)) == Some(Disabled)
  {
    CollisionChainOutcome(h, forward, backward, ballX, viewportWidth);
  }

  /** No test holds exactly when the ball is inside the field and touches nothing it reacts to. */
  lemma NoCollisionIff(h: Hitboxes, forward: bool, backward: bool, ballX: int, viewportWidth: int)
    ensures FirstMatch(CollisionChain(h, forward, backward, ballX, viewportWidth)) == None ==>
      !TouchesPaddle1(h) && !TouchesPaddle2(h) && !Bounces(h, forward, backward) &&
      0 <= ballX <= viewportWidth
    ensures (!TouchesPaddle1(h) && !TouchesPaddle2(h) && !Bounces(h, forward, backward) &&
             0 <= ballX <= viewportWidth) ==>
      FirstMatch(CollisionChain(h, forward, backward, ballX, viewportWidth)) == None
  {
    CollisionChainOutcome(h, forward, backward, ballX, viewportWidth);
  }

  // ---------------------------------------------------------------------------
  // The ball's bookkeeping from frame to frame

  /**
   * The screen's fields that UpdateCollision, UpdateBall and the Enter key read and
   * write: the release flag, both ball states, the ball's position, the collision count
   * with both speeds, both direction flags and both scores.
   */
  datatype BallFrame = BallFrame(
    startGame: bool, currentState: BallState, previousState: BallState,
    position: Vector2, pace: Pace, forward: bool, backward: bool,
    score1: int, score2: int)

  /**
   * The invariant on that bookkeeping: previousState is never Disabled, the direction
   * flags never both hold, both speeds are equal and not negative, no score passes the
   * winning score, and while the ball is released both scores are below it.
   */
  predicate Settled(previousState: BallState, forward: bool, backward: bool,
                    speedX: int, speedY: int, startGame: bool, score1: int, score2: int)
  {
    previousState != Disabled &&
    !(forward && backward) &&
    0 <= speedX == speedY &&
    0 <= score1 <= playerScoreWin && 0 <= score2 <= playerScoreWin &&
    (startGame ==> score1 < playerScoreWin && score2 < playerScoreWin)
  }

  predicate Consistent(f: BallFrame)
  {
    Settled(f.previousState, f.forward, f.backward, f.pace.speedX, f.pace.speedY,
            f.startGame, f.score1, f.score2)
  }

  /**
   * UpdateCollision on a frame: the first collision test that holds becomes the current
   * state and a paddle contact adds one hit to the count; nothing else changes.
   */
  function Classify(f: BallFrame, h: Hitboxes, viewportWidth: int): (r: BallFrame)
    ensures r.pace.collisionCount == f.pace.collisionCount + (if TouchesPaddle1(h) || TouchesPaddle2(h) then 1 else 0)
    ensures TouchesPaddle1(h) ==> IsPlayer1Hit(r.currentState)
    ensures !TouchesPaddle1(h) && TouchesPaddle2(h) ==> IsPlayer2Hit(r.currentState)
    ensures r.startGame == f.startGame && r.previousState == f.previousState
    ensures r.position == f.position && r.forward == f.forward && r.backward == f.backward
    ensures r.score1 == f.score1 && r.score2 == f.score2
    ensures r.pace.speedX == f.pace.speedX && r.pace.speedY == f.pace.speedY
    ensures Consistent(f) ==> Consistent(r)
  {
    PaddleContactWins(h, f.forward, f.backward, f.position.X, viewportWidth);
    match FirstMatch(CollisionChain(h, f.forward, f.backward, f.position.X, viewportWidth))
    case None => f
    case Some(s) =>
      f.(currentState := s,
         pace := f.pace.(collisionCount := f.pace.collisionCount + if IsPaddleHit(s) then 1 else 0))
  }

  /**
   * The first phase of UpdateBall: what a started frame does to the ball and the score.
   * Before Enter nothing happens. A ball in play moves and keeps its pace and the scores.
   * A Disabled ball is served: at most one point is awarded, the pace restarts, and the
   * game waits for Enter with both states equal. The direction flags are never touched.
   */
  function Advance(f: BallFrame, viewport: Viewport): (r: BallFrame)
    ensures !f.startGame ==> r == f
    ensures r.forward == f.forward && r.backward == f.backward
    ensures f.startGame && f.currentState != Disabled ==>
      var d := Displacement(f.currentState, f.pace.speedX, f.pace.speedY);
      r.startGame && r.currentState == f.currentState && r.previousState == f.currentState &&
      r.position == Vector2(f.position.X + d.X, f.position.Y + d.Y) && r.pace == f.pace &&
      r.score1 == f.score1 && r.score2 == f.score2
    ensures f.startGame && f.currentState == Disabled ==>
      !r.startGame && r.previousState == r.currentState &&
      r.position == Vector2(viewport.Width / 2, viewport.Height / 2) &&
      r.pace == Pace(1, startingSpeed, startingSpeed) &&
      f.score1 <= r.score1 && f.score2 <= r.score2 && r.score1 + r.score2 <= f.score1 + f.score2 + 1
  {
    if !f.startGame then f
    else if f.currentState == Disabled then
      var serve := ServeAfter(f.previousState);
      f.(startGame := false, currentState := serve.next, previousState := serve.next,
         position := Vector2(viewport.Width / 2, viewport.Height / 2),
         pace := Pace(1, startingSpeed, startingSpeed),
         score1 := f.score1 + if serve.scorer == Player1Scores then 1 else 0,
         score2 := f.score2 + if serve.scorer == Player2Scores then 1 else 0)
    else
      var d := Displacement(f.currentState, f.pace.speedX, f.pace.speedY);
      f.(position := Vector2(f.position.X + d.X, f.position.Y + d.Y),
         previousState := f.currentState)
  }

  /**
   * UpdateBall on a frame. A frame before Enter leaves the ball, both states and the scores
   * alone. A started frame moves the ball by its state's displacement, or, when the ball is
   * Disabled, awards the point, re-centres the ball, restores the starting speed and waits
   * for Enter again. Every frame then updates the direction flags and applies the speed-up.
   */
  function BallUpdate(f: BallFrame, viewport: Viewport): (r: BallFrame)
    ensures r.pace.collisionCount % 5 != 0
    ensures !f.startGame ==>
      !r.startGame && r.position == f.position && r.currentState == f.currentState &&
      r.previousState == f.previousState && r.score1 == f.score1 && r.score2 == f.score2
    ensures f.score1 <= r.score1 && f.score2 <= r.score2 && r.score1 + r.score2 <= f.score1 + f.score2 + 1
    ensures f.startGame ==> r.previousState == r.currentState
    ensures f.currentState != Disabled ==>
      r.currentState == f.currentState && (r.forward, r.backward) == Heading(f.currentState, f.forward, f.backward)
    ensures Consistent(f) ==> Consistent(r)
  {
    var moved := Advance(f, viewport);
    var heading := Heading(moved.currentState, moved.forward, moved.backward);
    moved.(forward := heading.0, backward := heading.1, pace := SpeedUp(moved.pace))
  }

  /**
   * One active frame of the screen: the collision pass, then the ball update. The count
   * ends off a multiple of 5, before Enter the ball and the scores stay put, and Settled
   * is kept (PaddleSendsBallAway gives the effect of a paddle contact).
   */
  function Tick(f: BallFrame, h: Hitboxes, viewport: Viewport): (r: BallFrame)
    ensures r.pace.collisionCount % 5 != 0
    ensures !f.startGame ==>
      !r.startGame && r.position == f.position && r.score1 == f.score1 && r.score2 == f.score2
    ensures Consistent(f) ==> Consistent(r)
  {
    BallUpdate(Classify(f, h, viewport.Width), viewport)
  }

  /**
   * A released ball in play moves by its state's displacement and keeps its state, which
   * becomes the previous state; its speeds change only by the periodic speed-up.
   */
  lemma StartedBallMoves(f: BallFrame, viewport: Viewport)
    requires f.startGame && InPlay(f.currentState)
    ensures var r := BallUpdate(f, viewport);
      var d := Displacement(f.currentState, f.pace.speedX, f.pace.speedY);
      r.startGame && r.currentState == f.currentState &&
      r.position == Vector2(f.position.X + d.X, f.position.Y + d.Y) &&
      r.score1 == f.score1 && r.score2 == f.score2 &&
      r.previousState == f.currentState && r.pace == SpeedUp(f.pace)
  {
  }

  /**
   * A released ball that has left the field ends the rally: the point goes to the player
   * it was moving away from, the ball is re-centred at the starting speed, is served
   * towards the player who conceded, and waits for Enter.
   */
  lemma ServeAwardsLastStriker(f: BallFrame, viewport: Viewport)
    requires f.startGame && f.currentState == Disabled && InPlay(f.previousState)
    requires f.pace.speedX > 0
    ensures var r := BallUpdate(f, viewport);
      var away := Displacement(f.previousState, f.pace.speedX, f.pace.speedY).X;
      (r.score1 == f.score1 + 1 <==> away > 0) && (r.score2 == f.score2 + 1 <==> away < 0) &&
      r.score1 + r.score2 == f.score1 + f.score2 + 1 &&
      !r.startGame && r.position == Vector2(viewport.Width / 2, viewport.Height / 2) &&
      r.pace == Pace(1, startingSpeed, startingSpeed) &&
      (r.currentState == HitMidPlayer1 <==> away > 0) && (r.currentState == HitMidPlayer2 <==> away < 0)
  {
    PointGoesToLastStriker(f.previousState, f.pace.speedX, f.pace.speedY);
  }

  /**
   * On a released frame, a ball touching paddle 1 is sent towards paddle 2 and marked as
   * going forward; one touching only paddle 2 is sent back and marked as going backward.
   */
  lemma PaddleSendsBallAway(f: BallFrame, h: Hitboxes, viewport: Viewport)
    requires f.startGame && f.pace.speedX > 0
    requires TouchesPaddle1(h) || TouchesPaddle2(h)
    ensures var r := Tick(f, h, viewport);
      (TouchesPaddle1(h) ==> r.position.X == f.position.X + f.pace.speedX && r.forward && !r.backward) &&
      (!TouchesPaddle1(h) ==> r.position.X == f.position.X - f.pace.speedX && !r.forward && r.backward)
  {
    var c := Classify(f, h, viewport.Width);
    StartedBallMoves(c, viewport);
    HeadingAgreesWithMotion(c.currentState, c.forward, c.backward, c.pace.speedX, c.pace.speedY);
  }

  // ---------------------------------------------------------------------------
  // The players' controls

  /**
   * A paddle after UpdatePlayer: it steps by its keys, then its Y is clamped to
   * [-(topHeight / 2), viewportHeight - height / 2], so that its centre stays on screen.
   * The lower bound takes its half height from topHeight, the upper from height.
   */
  function PaddleMove(p: Vector2, down: bool, up: bool, topHeight: nat, height: nat,
                      viewportHeight: nat): (q: Vector2)
    ensures q.X == p.X
    ensures -(topHeight / 2) <= q.Y
    ensures -(topHeight / 2) <= viewportHeight - height / 2 ==> q.Y <= viewportHeight - height / 2
    ensures -(topHeight / 2) <= p.Y + PaddleStep(down, up) <= viewportHeight - height / 2 ==>
      q.Y == p.Y + PaddleStep(down, up)
  {
    Vector2(p.X, Clamp(p.Y + PaddleStep(down, up), -(topHeight / 2), viewportHeight - height / 2))
  }

  /** With a shared sprite height, the centre of a moved paddle is always on screen. */
  lemma PaddleCentreOnScreen(p: Vector2, down: bool, up: bool, height: nat, viewportHeight: nat)
    ensures 0 <= PaddleMove(p, down, up, height, height, viewportHeight).Y + height / 2 <= viewportHeight
  {
  }

  /** A paddle after n frames with the same keys held. */
  function Held(p: Vector2, down: bool, up: bool, height: nat, viewportHeight: nat, n: nat): Vector2
  {
    if n == 0 then p else PaddleMove(Held(p, down, up, height, viewportHeight, n - 1), down, up, height, height, viewportHeight)
  }

  /**
   * Holding only the down key moves an on-screen paddle by playerSpeed per frame until it
   * stops with its centre on the viewport's bottom edge.
   */
  lemma {:induction false} HoldingDownReachesBottom(p: Vector2, height: nat, viewportHeight: nat, n: nat)
    requires -(height / 2) <= p.Y <= viewportHeight - height / 2
    ensures Held(p, true, false, height, viewportHeight, n) ==
      Vector2(p.X, if p.Y + n * playerSpeed <= viewportHeight - height / 2
                   then p.Y + n * playerSpeed else viewportHeight - height / 2)
  {
    if n > 0 {
      HoldingDownReachesBottom(p, height, viewportHeight, n - 1);
    }
  }

  /**
   * The Enter key in UpdatePlayer: it releases the ball, and first clears both scores when
   * either player has reached the winning score.
   */
  function PressEnter(f: BallFrame): (r: BallFrame)
    ensures r.startGame
    ensures r.currentState == f.currentState && r.previousState == f.previousState
    ensures r.position == f.position && r.pace == f.pace
    ensures r.forward == f.forward && r.backward == f.backward
    ensures f.score1 != playerScoreWin && f.score2 != playerScoreWin ==>
      r.score1 == f.score1 && r.score2 == f.score2
    ensures f.score1 == playerScoreWin || f.score2 == playerScoreWin ==> r.score1 == 0 && r.score2 == 0
    ensures Consistent(f) ==> Consistent(r) && r.score1 < playerScoreWin && r.score2 < playerScoreWin
  {
    if f.score1 == playerScoreWin || f.score2 == playerScoreWin then
      f.(startGame := true, score1 := 0, score2 := 0)
    else
      f.(startGame := true)
  }

  class GameplayScreen {
    const player1: Player
    const player2: Player
    const ball: Ball

    var borderTexture: Texture2D
    var currentKeyboardState: KeyboardState

    var ballSpeedX: int
    var ballSpeedY: int

    var currentState: BallState
    var previousState: BallState

    var ballGoingForward: bool
    var ballGoingBackward: bool

    /** Has Enter been pressed to release the ball? */
    var startGame: bool

    /** Paddle hits since the last speed-up or serve. */
    var collisionCount: int

    var player1Top: Rectangle
    var player1Mid: Rectangle
    var player1Bottom: Rectangle
    var player2Top: Rectangle
    var player2Mid: Rectangle
    var player2Bottom: Rectangle
    var bottomBorder: Rectangle
    var topBorder: Rectangle
    var ballRectangle: Rectangle

    /** All three sprites have been loaded. */
    ghost predicate Loaded()
      reads player1`playerTexture, player2`playerTexture, ball`ballTexture
    {
      player1.playerTexture.Some? && player2.playerTexture.Some? && ball.ballTexture.Some?
    }

    /**
     * The screen's invariant: the two paddles are distinct objects sharing one loaded
     * sprite, the ball's sprite is loaded, and the ball bookkeeping is Settled.
     */
    ghost predicate Valid()
      reads this`previousState, this`ballGoingForward, this`ballGoingBackward
      reads this`ballSpeedX, this`ballSpeedY, this`startGame
      reads player1`playerTexture, player1`Score, player2`playerTexture, player2`Score
      reads ball`ballTexture
    {
      player1 != player2 && Loaded() && player1.playerTexture == player2.playerTexture &&
      Settled(previousState, ballGoingForward, ballGoingBackward, ballSpeedX, ballSpeedY,
              startGame, player1.Score, player2.Score)
    }

    /**
     * The constructor, followed by the sprite and start-position set-up of LoadContent.
     * Speeds and collisionCount keep their default 0, so the first frame speeds the ball up
     * to 1 and restarts the count.
     */
    constructor (playerTexture: Texture2D, ballTexture: Texture2D, borderTexture: Texture2D,
                 player1Position: Vector2, player2Position: Vector2, ballPosition: Vector2)
      ensures Valid()
      ensures fresh(player1) && fresh(player2) && fresh(ball)
      ensures currentState == Disabled && previousState == Unset && !startGame
      ensures !ballGoingForward && !ballGoingBackward
      ensures collisionCount == 0 && ballSpeedX == 0 && ballSpeedY == 0
      ensures player1.Position == player1Position && player2.Position == player2Position
      ensures ball.Position == ballPosition
      ensures player1.Score == 0 && player2.Score == 0
      ensures player1.playerTexture == player2.playerTexture == Some(playerTexture)
      ensures ball.ballTexture == Some(ballTexture)
      ensures player1.Active && player2.Active && ball.Active
      ensures player1.Height() == player2.Height() == playerTexture.Height
      ensures ball.Width() == ballTexture.Width && ball.Height() == ballTexture.Height
      ensures this.borderTexture == borderTexture
      ensures currentKeyboardState == KeyboardState(false, false, false, false, false)
    {
      player1 := new Player();
      player2 := new Player();
      ball := new Ball();
      currentState := Disabled;
      previousState := Unset;
      startGame := false;
      ballGoingForward := false;
      ballGoingBackward := false;
      collisionCount := 0;
      ballSpeedX := 0;
      ballSpeedY := 0;
      this.borderTexture := borderTexture;
      currentKeyboardState := KeyboardState(false, false, false, false, false);
      player1Top := Rectangle(0, 0, 0, 0);
      player1Mid := Rectangle(0, 0, 0, 0);
      player1Bottom := Rectangle(0, 0, 0, 0);
      player2Top := Rectangle(0, 0, 0, 0);
      player2Mid := Rectangle(0, 0, 0, 0);
      player2Bottom := Rectangle(0, 0, 0, 0);
      bottomBorder := Rectangle(0, 0, 0, 0);
      topBorder := Rectangle(0, 0, 0, 0);
      ballRectangle := Rectangle(0, 0, 0, 0);
      new;
      player1.Initialize(playerTexture, player1Position);
      player2.Initialize(playerTexture, player2Position);
      ball.Initialize(ballTexture, ballPosition);
    }

    /** The nine hit boxes as last built by CreateCollisionBoxes. */
    function Boxes(): Hitboxes
      reads this`player1Top, this`player1Mid, this`player1Bottom
      reads this`player2Top, this`player2Mid, this`player2Bottom
      reads this`bottomBorder, this`topBorder, this`ballRectangle
    {
      Hitboxes(player1Top, player1Mid, player1Bottom, player2Top, player2Mid, player2Bottom,
               bottomBorder, topBorder, ballRectangle)
    }

    /** The hit boxes the current positions and sprites call for. */
    function LiveBoxes(viewport: Viewport): Hitboxes
      reads this`borderTexture, player1`Position, player1`playerTexture
      reads player2`Position, player2`playerTexture, ball`Position, ball`ballTexture
      requires Loaded()
    {
      CollisionBoxes(viewport, borderTexture.Height,
                     player1.Position.Y, player1.Width(), player1.Height(),
                     player2.Position.Y, player2.Width(), player2.Height(),
                     ball.Position, ball.Width(), ball.Height())
    }

    /** The ball bookkeeping as a BallFrame. */
    function Frame(): BallFrame
      reads this`startGame, this`currentState, this`previousState, ball`Position
      reads this`collisionCount, this`ballSpeedX, this`ballSpeedY
      reads this`ballGoingForward, this`ballGoingBackward, player1`Score, player2`Score
    {
      BallFrame(startGame, currentState, previousState, ball.Position,
                Pace(collisionCount, ballSpeedX, ballSpeedY), ballGoingForward, ballGoingBackward,
                player1.Score, player2.Score)
    }

    /** The screen's fields hold exactly the frame r. */
    ghost predicate Shows(r: BallFrame)
      reads this`startGame, this`currentState, this`previousState, ball`Position
      reads this`collisionCount, this`ballSpeedX, this`ballSpeedY
      reads this`ballGoingForward, this`ballGoingBackward, player1`Score, player2`Score
    {
      startGame == r.startGame && currentState == r.currentState &&
      previousState == r.previousState && ball.Position == r.position &&
      collisionCount == r.pace.collisionCount && ballSpeedX == r.pace.speedX &&
      ballSpeedY == r.pace.speedY && ballGoingForward == r.forward &&
      ballGoingBackward == r.backward && player1.Score == r.score1 && player2.Score == r.score2
    }

    /**
     * Rebuilds the nine hit boxes from the current positions. Paddle 1's middle zone takes
     * its width from paddle 2's sprite, and the bottom border starts at the viewport's
     * bottom edge, below the drawn border.
     */
    method CreateCollisionBoxes(viewport: Viewport)
      requires Loaded()
      modifies this`player1Top, this`player1Mid, this`player1Bottom
      modifies this`player2Top, this`player2Mid, this`player2Bottom
      modifies this`ballRectangle, this`bottomBorder, this`topBorder
      ensures Boxes() == LiveBoxes(viewport)
    {
      var w1, h1, w2, h2 := player1.Width(), player1.Height(), player2.Width(), player2.Height();
      var y1, y2 := player1.Position.Y, player2.Position.Y;
      var x2 := viewport.Width - w2 * 2;
      player1Top := Rectangle(w1, y1, w1, h1 * 3 / 7);
      player2Top := Rectangle(x2, y2, w2, h2 * 3 / 7);
      player1Mid := Rectangle(w1, y1 + h1 * 3 / 7, w2, h1 / 7);
      player2Mid := Rectangle(x2, y2 + h2 * 3 / 7, w2, h2 / 7);
      player1Bottom := Rectangle(w1, y1 + h1 * 4 / 7, w1, h1 * 3 / 7);
      player2Bottom := Rectangle(x2, y2 + h2 * 4 / 7, w2, h2 * 3 / 7);
      ballRectangle := Rectangle(ball.Position.X, ball.Position.Y, ball.Width(), ball.Height());
      bottomBorder := Rectangle(0, viewport.Height, viewport.Width, borderTexture.Height);
      topBorder := Rectangle(0, 0, viewport.Width, borderTexture.Height);
    }

    /**
     * Classifies the ball's collisions: the first test of CollisionChain that holds sets
     * currentState, and a paddle contact adds one to collisionCount. When no test holds
     * nothing changes. Positions, speeds and scores are outside its frame. The ghost f is
     * the ball bookkeeping the screen holds on entry.
     */
    method UpdateCollision(viewport: Viewport, ghost f: BallFrame)
      requires Shows(f)
      modifies this`currentState, this`collisionCount
      ensures var c := Classify(f, Boxes(), viewport.Width);
        currentState == c.currentState && collisionCount == c.pace.collisionCount
    {
      CollisionChainOutcome(Boxes(), ballGoingForward, ballGoingBackward, ball.Position.X, viewport.Width);
      if Intersects(ballRectangle, player1Mid) {
        currentState := HitMidPlayer1;
        collisionCount := collisionCount + 1;
      } else if Intersects(ballRectangle, player1Top) {
        currentState := HitTopPlayer1;
        collisionCount := collisionCount + 1;
      } else if Intersects(ballRectangle, player1Bottom) {
        currentState := HitBottomPlayer1;
        collisionCount := collisionCount + 1;
      } else if Intersects(ballRectangle, player2Mid) {
        currentState := HitMidPlayer2;
        collisionCount := collisionCount + 1;
      } else if Intersects(ballRectangle, player2Top) {
        currentState := HitTopPlayer2;
        collisionCount := collisionCount + 1;
      } else if Intersects(ballRectangle, player2Bottom) {
        currentState := HitBottomPlayer2;
        collisionCount := collisionCount + 1;
      } else if Intersects(ballRectangle, topBorder) && ballGoingForward {
        currentState := HitTopBorderRight;
      } else if Intersects(ballRectangle, topBorder) && ballGoingBackward {
        currentState := HitTopBorderLeft;
      } else if Intersects(ballRectangle, bottomBorder) && ballGoingForward {
        currentState := HitBottomBorderRight;
      } else if Intersects(ballRectangle, bottomBorder) && ballGoingBackward {
        currentState := HitBottomBorderLeft;
      } else if ball.Position.X > viewport.Width {
        currentState := Disabled;
      } else if ball.Position.X < 0 {
        currentState := Disabled;
      }
    }
    /**
     * Advances the ball state machine (see BallUpdate): before Enter only the direction
     * flags and the speed-up run; after it the ball moves by its state, or a Disabled ball
     * is scored, re-centred and held for the next Enter. The ghost f is the ball
     * bookkeeping the screen holds on entry.
     */
    method UpdateBall(viewport: Viewport, ghost f: BallFrame)
      requires player1 != player2 && Shows(f)
      modifies this`currentState, this`previousState, this`startGame, ball`Position
      modifies this`ballSpeedX, this`ballSpeedY, this`collisionCount
      modifies this`ballGoingForward, this`ballGoingBackward, player1`Score, player2`Score
      ensures Shows(BallUpdate(f, viewport))
    {
      AdvanceBall(viewport, f);

      if IsPlayer1Hit(currentState) {
        ballGoingForward := true;
        ballGoingBackward := false;
      } else if IsPlayer2Hit(currentState) {
        ballGoingForward := false;
        ballGoingBackward := true;
      }

      if collisionCount % 5 == 0 {
        ballSpeedX := ballSpeedX + 1;
        ballSpeedY := ballSpeedY + 1;
        collisionCount := 1;
      }
    }

    /** UpdateBall's first phase: the release check, the move or serve, and previousState. */
    method AdvanceBall(viewport: Viewport, ghost f: BallFrame)
      requires player1 != player2 && Shows(f)
      modifies this`currentState, this`previousState, this`startGame, ball`Position
      modifies this`ballSpeedX, this`ballSpeedY, this`collisionCount, player1`Score, player2`Score
      ensures Shows(Advance(f, viewport))
    {
      if startGame {
        if currentState == Disabled {
          ServeBall(viewport);
        } else {
          var d := Displacement(currentState, ballSpeedX, ballSpeedY);
          ball.Position := Vector2(ball.Position.X + d.X, ball.Position.Y + d.Y);
        }
        previousState := currentState;
      }
    }

    /**
     * The Disabled case of UpdateBall: the scorer of ServeAfter(previousState) gets the
     * point, the ball is re-centred at the starting speed with a fresh count, is aimed at
     * the player who conceded, and waits for Enter.
     */
    method ServeBall(viewport: Viewport)
      requires player1 != player2
      modifies this`currentState, this`startGame, ball`Position
      modifies this`ballSpeedX, this`ballSpeedY, this`collisionCount, player1`Score, player2`Score
      ensures var serve := ServeAfter(previousState);
        !startGame && currentState == serve.next &&
        ball.Position == Vector2(viewport.Width / 2, viewport.Height / 2) &&
        ballSpeedX == startingSpeed && ballSpeedY == startingSpeed && collisionCount == 1 &&
        player1.Score == old(player1.Score) + (if serve.scorer == Player1Scores then 1 else 0) &&
        player2.Score == old(player2.Score) + (if serve.scorer == Player2Scores then 1 else 0)
    {
      var serve := ServeAfter(previousState);
      if serve.scorer == Player1Scores {
        player1.Score := player1.Score + 1;
      } else if serve.scorer == Player2Scores {
        player2.Score := player2.Score + 1;
      }
      currentState := serve.next;
      startGame := false;
      ball.Position := Vector2(viewport.Width / 2, viewport.Height / 2);
      ballSpeedX := startingSpeed;
      ballSpeedY := startingSpeed;
      collisionCount := 1;
    }

    /**
     * Moves the paddles from the stored keyboard state (Down/Up for paddle 2, S/W for
     * paddle 1), releases the ball on Enter (clearing a won match first), and clamps both
     * paddles so that their centres stay on screen; paddle 2's lower bound takes its half
     * height from paddle 1.
     */
    method UpdatePlayer(viewport: Viewport)
      requires Loaded() && player1 != player2
      modifies player1`Position, player2`Position, this`startGame, player1`Score, player2`Score
      ensures player1.Position ==
        old(PaddleMove(player1.Position, currentKeyboardState.S, currentKeyboardState.W,
                       player1.Height(), player1.Height(), viewport.Height))
      ensures player2.Position ==
        old(PaddleMove(player2.Position, currentKeyboardState.Down, currentKeyboardState.Up,
                       player1.Height(), player2.Height(), viewport.Height))
      ensures Shows(if currentKeyboardState.Enter then PressEnter(old(Frame())) else old(Frame()))
    {
      MovePaddle(player2, currentKeyboardState.Down, currentKeyboardState.Up, player1.Height(), viewport.Height);
      MovePaddle(player1, currentKeyboardState.S, currentKeyboardState.W, player1.Height(), viewport.Height);
      if currentKeyboardState.Enter {
        ReleaseBall();
      }
    }

    /**
     * One paddle's part of UpdatePlayer: step down and up by playerSpeed for the held
     * keys, then clamp Y between -(topHeight / 2) and the viewport's height less half the
     * paddle's own height.
     */
    static method MovePaddle(paddle: Player, down: bool, up: bool, topHeight: nat, viewportHeight: nat)
      requires paddle.playerTexture.Some?
      modifies paddle`Position
      ensures paddle.Position ==
        old(PaddleMove(paddle.Position, down, up, topHeight, paddle.Height(), viewportHeight))
    {
      if down {
        paddle.Position := paddle.Position.(Y := paddle.Position.Y + playerSpeed);
      }
      if up {
        paddle.Position := paddle.Position.(Y := paddle.Position.Y - playerSpeed);
      }
      var top: int, height: int := topHeight, paddle.Height();
      paddle.Position := paddle.Position.(Y := Clamp(paddle.Position.Y, 0 - top / 2, viewportHeight - height / 2));
    }

    /** The Enter key's effect: release the ball, clearing a won match first. */
    method ReleaseBall()
      requires player1 != player2
      modifies this`startGame, player1`Score, player2`Score
      ensures Shows(PressEnter(old(Frame())))
    {
      startGame := true;
      if player1.Score == playerScoreWin || player2.Score == playerScoreWin {
        player1.Score := 0;
        player2.Score := 0;
      }
    }

    /**
     * The screen's input handler: a pause request (the pause key, or the controlling
     * gamepad unplugged) leaves the game alone; otherwise the players move.
     */
    method HandleInput(pauseRequested: bool, viewport: Viewport)
      requires Valid()
      modifies player1`Position, player2`Position, this`startGame, player1`Score, player2`Score
      ensures Valid()
      ensures pauseRequested ==> unchanged(this, player1, player2)
      ensures !pauseRequested ==>
        player1.Position ==
          old(PaddleMove(player1.Position, currentKeyboardState.S, currentKeyboardState.W,
                         player1.Height(), player1.Height(), viewport.Height)) &&
        player2.Position ==
          old(PaddleMove(player2.Position, currentKeyboardState.Down, currentKeyboardState.Up,
                         player1.Height(), player2.Height(), viewport.Height)) &&
        Shows(if currentKeyboardState.Enter then PressEnter(old(Frame())) else old(Frame()))
    {
      if !pauseRequested {
        UpdatePlayer(viewport);
      }
    }

    /**
     * One frame of the screen. While it is active it reads the keyboard, rebuilds the hit
     * boxes, classifies the collision and advances the ball; otherwise nothing changes.
     */
    method Update(isActive: bool, keys: KeyboardState, viewport: Viewport)
      requires Valid()
      modifies this`currentKeyboardState
      modifies this`player1Top, this`player1Mid, this`player1Bottom
      modifies this`player2Top, this`player2Mid, this`player2Bottom
      modifies this`ballRectangle, this`bottomBorder, this`topBorder
      modifies this`currentState, this`previousState, this`startGame, ball`Position
      modifies this`ballSpeedX, this`ballSpeedY, this`collisionCount
      modifies this`ballGoingForward, this`ballGoingBackward, player1`Score, player2`Score
      ensures Valid()
      ensures !isActive ==> unchanged(this, ball, player1, player2)
      ensures isActive ==>
        currentKeyboardState == keys && Boxes() == old(LiveBoxes(viewport)) &&
        Shows(Tick(old(Frame()), Boxes(), viewport))
    {
      if isActive {
        ghost var f := Frame();
        currentKeyboardState := keys;
        CreateCollisionBoxes(viewport);
        PlayBall(viewport, f);
      }
    }

    /**
     * The ball's part of an active frame: UpdateCollision, then UpdateBall, from the
     * bookkeeping f against the hit boxes just built. It keeps the ball bookkeeping Settled.
     */
    method PlayBall(viewport: Viewport, ghost f: BallFrame)
      requires Valid() && Shows(f)
      modifies this`currentState, this`previousState, this`startGame, ball`Position
      modifies this`ballSpeedX, this`ballSpeedY, this`collisionCount
      modifies this`ballGoingForward, this`ballGoingBackward, player1`Score, player2`Score
      ensures Settled(previousState, ballGoingForward, ballGoingBackward, ballSpeedX, ballSpeedY,
                      startGame, player1.Score, player2.Score)
      ensures Shows(Tick(f, old(Boxes()), viewport))
    {
      assert Consistent(f);
      UpdateCollision(viewport, f);
      ghost var c := Classify(f, Boxes(), viewport.Width);
      assert Shows(c);
      UpdateBall(viewport, c);
    }
  }
}
