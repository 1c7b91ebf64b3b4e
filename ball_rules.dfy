/**
 * The pure rules behind the gameplay screen's ball state machine: the states, the
 * first-match priority of the collision tests, how each state moves the ball, the
 * serve that follows a Disabled state, the direction flags, the periodic speed-up and
 * the three hit zones a paddle is split into.
 */
module BallRules {
  import opened Wrappers
  import opened Xna

  /** BallState, plus Unset for the value 0 that previousState holds before the first serve. */
  datatype BallState =
    | Unset
    | HitTopPlayer1 | HitMidPlayer1 | HitBottomPlayer1
    | HitTopPlayer2 | HitMidPlayer2 | HitBottomPlayer2
    | HitTopBorderRight | HitTopBorderLeft
    | HitBottomBorderRight | HitBottomBorderLeft
    | Disabled

  predicate IsPlayer1Hit(s: BallState)
  {
    s == HitTopPlayer1 || s == HitMidPlayer1 || s == HitBottomPlayer1
  }

  predicate IsPlayer2Hit(s: BallState)
  {
    s == HitTopPlayer2 || s == HitMidPlayer2 || s == HitBottomPlayer2
  }

  /** A contact with either paddle: the hits that count towards the speed-up. */
  predicate IsPaddleHit(s: BallState)
  {
    IsPlayer1Hit(s) || IsPlayer2Hit(s)
  }

  /** States in which the ball travels towards player 2 (last struck by player 1). */
  predicate Player1Family(s: BallState)
  {
    IsPlayer1Hit(s) || s == HitTopBorderRight || s == HitBottomBorderRight
  }

  /** States in which the ball travels towards player 1 (last struck by player 2). */
  predicate Player2Family(s: BallState)
  {
    IsPlayer2Hit(s) || s == HitTopBorderLeft || s == HitBottomBorderLeft
  }

  /** States in which the ball is in play and moves on every started frame. */
  predicate InPlay(s: BallState)
  {
    s != Unset && s != Disabled
  }

  lemma FamiliesPartitionPlay(s: BallState)
    ensures InPlay(s) <==> (Player1Family(s) || Player2Family(s))
    ensures !(Player1Family(s) && Player2Family(s))
  {
  }

  // ---------------------------------------------------------------------------
  // Collision priority

  /**
   * An if / else-if chain of tests: each Test sets the state to `target` when its guard
   * holds and is the first in the chain to do so.
   */
  datatype Chain = Otherwise | Test(guard: bool, target: BallState, orElse: Chain)

  /** The state set by the first test whose guard holds, or None when no guard holds. */
  function FirstMatch(c: Chain): Option<BallState>
  {
    match c
    case Otherwise => None
    case Test(guard, target, orElse) => if guard then Some(target) else FirstMatch(orElse)
  }

  /** One test of the chain: it either stops the chain or passes on to the rest. */
  lemma FirstMatchStep(c: Chain)
    requires c.Test?
    ensures FirstMatch(c) == if c.guard then Some(c.target) else FirstMatch(c.orElse)
  {
  }

  function Length(c: Chain): nat
  {
    if c.Otherwise? then 0 else 1 + Length(c.orElse)
  }

  /** The guard of the i-th test, counting from 0. */
  function GuardAt(c: Chain, i: nat): bool
    requires i < Length(c)
  {
    if i == 0 then c.guard else GuardAt(c.orElse, i - 1)
  }

  /** The target of the i-th test, counting from 0. */
  function TargetAt(c: Chain, i: nat): BallState
    requires i < Length(c)
  {
    if i == 0 then c.target else TargetAt(c.orElse, i - 1)
  }

  /** The targets of the chain's tests, in order. */
  function Targets(c: Chain): (ts: seq<BallState>)
    ensures |ts| == Length(c)
    ensures forall i :: 0 <= i < |ts| ==> ts[i] == TargetAt(c, i)
  {
    if c.Otherwise? then [] else [c.target] + Targets(c.orElse)
  }

  /**
   * The position of the test the chain stops at, or Length(c) when it runs off the end:
   * every earlier guard fails and, if it stops, the guard there holds.
   */
  function Taken(c: Chain): (k: nat)
    ensures k <= Length(c)
    ensures forall j :: 0 <= j < k ==> !GuardAt(c, j)
    ensures k < Length(c) ==> GuardAt(c, k)
  {
    if c.Otherwise? then 0
    else if c.guard then 0
    else 1 + Taken(c.orElse)
  }

  /** Test i fires when its guard holds and every earlier guard fails. */
  predicate Fires(c: Chain, i: nat)
  {
    i < Length(c) && GuardAt(c, i) && forall j :: 0 <= j < i ==> !GuardAt(c, j)
  }

  /**
   * The chain takes exactly one test, or none: test i fires precisely when it is the
   * one the chain stops at.
   */
  lemma OnlyFirstMatchFires(c: Chain, i: nat)
    ensures Fires(c, i) <==> i == Taken(c) < Length(c)
  {
  }

  /**
   * The state the chain sets is the target of the test it stops at; it sets none
   * exactly when no guard holds.
   */
  lemma {:induction false} FirstMatchIsTakenTest(c: Chain)
    ensures FirstMatch(c) == if Taken(c) < Length(c) then Some(TargetAt(c, Taken(c))) else None
  {
    match c
    case Otherwise =>
    case Test(guard, target, orElse) =>
      FirstMatchIsTakenTest(orElse);
  }

  /** The chain leaves the state alone exactly when none of its guards holds. */
  lemma NoMatchIffNoGuard(c: Chain)
    ensures FirstMatch(c) == None ==> forall j :: 0 <= j < Length(c) ==> !GuardAt(c, j)
    ensures (forall j :: 0 <= j < Length(c) ==> !GuardAt(c, j)) ==> FirstMatch(c) == None
  {
    FirstMatchIsTakenTest(c);
    if Taken(c) < Length(c) {
      assert GuardAt(c, Taken(c));
    }
  }

  // ---------------------------------------------------------------------------
  // Movement

  /**
   * How far one started frame moves the ball in state s. A paddle's top zone sends the
   * ball up, its middle zone straight and its bottom zone down; a border sends it away
   * from that border; the horizontal direction is that of the paddle that last hit it.
   */
  function Displacement(s: BallState, speedX: int, speedY: int): (d: Vector2)
    ensures Player1Family(s) ==> d.X == speedX
    ensures Player2Family(s) ==> d.X == -speedX
    ensures !InPlay(s) ==> d == Vector2(0, 0)
    ensures s in {HitTopPlayer1, HitTopPlayer2} ==> d.Y == -speedY
    ensures s in {HitMidPlayer1, HitMidPlayer2} ==> d.Y == 0
    ensures s in {HitBottomPlayer1, HitBottomPlayer2} ==> d.Y == speedY
    ensures s in {HitTopBorderRight, HitTopBorderLeft} ==> d.Y == speedY
    ensures s in {HitBottomBorderRight, HitBottomBorderLeft} ==> d.Y == -speedY
  {
    match s
    case HitTopPlayer1 => Vector2(speedX, -speedY)
    case HitMidPlayer1 => Vector2(speedX, 0)
    case HitBottomPlayer1 => Vector2(speedX, speedY)
    case HitTopPlayer2 => Vector2(-speedX, -speedY)
    case HitMidPlayer2 => Vector2(-speedX, 0)
    case HitBottomPlayer2 => Vector2(-speedX, speedY)
    case HitTopBorderRight => Vector2(speedX, speedY)
    case HitTopBorderLeft => Vector2(-speedX, speedY)
    case HitBottomBorderRight => Vector2(speedX, -speedY)
    case HitBottomBorderLeft => Vector2(-speedX, -speedY)
    case Unset => Vector2(0, 0)
    case Disabled => Vector2(0, 0)
  }

  // ---------------------------------------------------------------------------
  // Serve after the ball has left the field

  datatype Scorer = Nobody | Player1Scores | Player2Scores

  /** What the Disabled state does: who gets the point and which state the ball is served in. */
  datatype Serve = Serve(scorer: Scorer, next: BallState)

  /**
   * The bookkeeping of the Disabled state, decided by the state the ball was in before it
   * left the field. The point goes to the player who last sent the ball away; the serve
   * goes towards player 2 on the first serve and after a point for player 1, and towards
   * player 1 after a point for player 2.
   */
  function ServeAfter(previous: BallState): (r: Serve)
    ensures r.scorer == Player1Scores <==> Player1Family(previous)
    ensures r.scorer == Player2Scores <==> Player2Family(previous)
    ensures previous != Disabled ==> r.next in {HitMidPlayer1, HitMidPlayer2}
    ensures previous != Disabled ==> (r.next == HitMidPlayer2 <==> r.scorer == Player2Scores)
    ensures previous == Disabled ==> r == Serve(Nobody, Disabled)
  {
    if previous == Unset then Serve(Nobody, HitMidPlayer1)
    else if Player1Family(previous) then Serve(Player1Scores, HitMidPlayer1)
    else if Player2Family(previous) then Serve(Player2Scores, HitMidPlayer2)
    else Serve(Nobody, Disabled)
  }

  /** The point goes to the player the ball was moving away from in its last in-play state. */
  lemma PointGoesToLastStriker(previous: BallState, speedX: int, speedY: int)
    requires InPlay(previous) && speedX > 0
    ensures ServeAfter(previous).scorer == Player1Scores <==> Displacement(previous, speedX, speedY).X > 0
    ensures ServeAfter(previous).scorer == Player2Scores <==> Displacement(previous, speedX, speedY).X < 0
  {
  }

  // ---------------------------------------------------------------------------
  // Direction flags and speed-up

  /**
   * The (ballGoingForward, ballGoingBackward) pair after a frame in state s: a paddle hit
   * records which paddle struck last, any other state keeps the old flags.
   */
  function Heading(s: BallState, forward: bool, backward: bool): (r: (bool, bool))
    ensures IsPaddleHit(s) ==> r.0 != r.1 && (r.0 <==> IsPlayer1Hit(s))
    ensures !IsPaddleHit(s) ==> r == (forward, backward)
    ensures !(forward && backward) ==> !(r.0 && r.1)
  {
    if IsPlayer1Hit(s) then (true, false)
    else if IsPlayer2Hit(s) then (false, true)
    else (forward, backward)
  }

  /** After a paddle hit, "forward" holds exactly when the ball moves towards player 2. */
  lemma HeadingAgreesWithMotion(s: BallState, forward: bool, backward: bool, speedX: int, speedY: int)
    requires IsPaddleHit(s) && speedX > 0
    ensures Heading(s, forward, backward).0 <==> Displacement(s, speedX, speedY).X > 0
    ensures Heading(s, forward, backward).1 <==> Displacement(s, speedX, speedY).X < 0
  {
  }

  datatype Pace = Pace(collisionCount: int, speedX: int, speedY: int)

  /**
   * The speed-up at the end of every frame: when the collision count is a multiple of 5
   * both speeds grow by one and the count restarts at 1. Afterwards the count is never a
   * multiple of 5; since it restarts at 1, the fourth paddle hit after a restart brings it
   * to 5 (see SpeedRisesEveryFourHits).
   */
  function SpeedUp(p: Pace): (r: Pace)
    ensures r.collisionCount % 5 != 0
    ensures p.collisionCount % 5 == 0 ==> r == Pace(1, p.speedX + 1, p.speedY + 1)
    ensures p.collisionCount % 5 != 0 ==> r == p
  {
    if p.collisionCount % 5 == 0 then Pace(1, p.speedX + 1, p.speedY + 1) else p
  }

  /** The pace after n frames that each count one paddle hit and then apply SpeedUp. */
  function AfterHits(p: Pace, n: nat): Pace
  {
    if n == 0 then p
    else
      var before := AfterHits(p, n - 1);
      SpeedUp(before.(collisionCount := before.collisionCount + 1))
  }

  /**
   * Starting from a restarted count of 1, both speeds grow by one on every fourth paddle
   * hit and the count cycles through 1, 2, 3, 4.
   */
  lemma {:induction false} SpeedRisesEveryFourHits(speedX: int, speedY: int, n: nat)
    ensures AfterHits(Pace(1, speedX, speedY), n) == Pace(1 + n % 4, speedX + n / 4, speedY + n / 4)
  {
    if n > 0 {
      SpeedRisesEveryFourHits(speedX, speedY, n - 1);
    }
  }

  // ---------------------------------------------------------------------------
  // Paddle hit zones

  datatype Zone = Top | Mid | Bottom

  /**
   * One hit zone of a paddle whose top edge is at y and whose sprite is `height` tall:
   * the top 3/7, the next 1/7 and the 3/7 from 4/7 down, all by integer division.
   */
  function ZoneRect(x: int, width: int, y: int, height: nat, zone: Zone): Rectangle
  {
    match zone
    case Top => Rectangle(x, y, width, height * 3 / 7)
    case Mid => Rectangle(x, y + height * 3 / 7, width, height / 7)
    case Bottom => Rectangle(x, y + height * 4 / 7, width, height * 3 / 7)
  }

  /** Splits the integer divisions of the zone sizes into their quotient and remainder parts. */
  lemma ZoneArithmetic(height: nat)
    ensures height * 3 / 7 == 3 * (height / 7) + (3 * (height % 7)) / 7
    ensures height * 4 / 7 == 4 * (height / 7) + (4 * (height % 7)) / 7
  {
    var q, r := height / 7, height % 7;
    assert height * 3 == 7 * (3 * q) + 3 * r;
    assert height * 4 == 7 * (4 * q) + 4 * r;
  }

  /**
   * The three zones lie one below the other inside the paddle, top to bottom, so no two
   * of them overlap: a ball touching two zones at once does so across a gap or an edge.
   * The middle zone may have a width of its own (paddle 1's takes paddle 2's width).
   */
  lemma ZonesStackInsidePaddle(x: int, width: int, midWidth: int, y: int, height: nat)
    ensures ZoneRect(x, width, y, height, Top).Y == y
    ensures ZoneRect(x, width, y, height, Top).Y + ZoneRect(x, width, y, height, Top).Height
            == ZoneRect(x, midWidth, y, height, Mid).Y
    ensures ZoneRect(x, midWidth, y, height, Mid).Y + ZoneRect(x, midWidth, y, height, Mid).Height
            <= ZoneRect(x, width, y, height, Bottom).Y
    ensures ZoneRect(x, width, y, height, Bottom).Y + ZoneRect(x, width, y, height, Bottom).Height
            <= y + height
    ensures !Intersects(ZoneRect(x, width, y, height, Top), ZoneRect(x, midWidth, y, height, Mid))
    ensures !Intersects(ZoneRect(x, midWidth, y, height, Mid), ZoneRect(x, width, y, height, Bottom))
    ensures !Intersects(ZoneRect(x, width, y, height, Top), ZoneRect(x, width, y, height, Bottom))
  {
    ZoneArithmetic(height);
  }

  /**
   * The zones cover the paddle's full height without gaps exactly when its height is a
   * multiple of 7; otherwise some rows of the paddle belong to no zone and a ball that
   * touches only those rows passes through the paddle.
   */
  lemma ZonesCoverPaddleIff(x: int, width: int, y: int, height: nat)
    ensures (ZoneRect(x, width, y, height, Mid).Y + ZoneRect(x, width, y, height, Mid).Height
               == ZoneRect(x, width, y, height, Bottom).Y &&
             ZoneRect(x, width, y, height, Bottom).Y + ZoneRect(x, width, y, height, Bottom).Height
               == y + height)
            <==> height % 7 == 0
  {
    ZoneArithmetic(height);
    var r := height % 7;
    assert r == 0 || r == 1 || r == 2 || r == 3 || r == 4 || r == 5 || r == 6;
  }
}
