/**
 * Integer stand-ins for the parts of the XNA framework that the gameplay engine uses:
 * positions, textures (only their size matters), the viewport, rectangles and their
 * intersection test, the keyboard state and MathHelper.Clamp.
 */
module Xna {

  /** A position. The game only ever stores integral coordinates in it. */
  datatype Vector2 = Vector2(X: int, Y: int)

  /** A loaded texture; the engine only reads its size in pixels. */
  datatype Texture2D = Texture2D(Width: nat, Height: nat)

  /** The size of the drawing surface, queried again on every frame. */
  datatype Viewport = Viewport(Width: nat, Height: nat)

  /** An axis-aligned rectangle: top-left corner, width and height. */
  datatype Rectangle = Rectangle(X: int, Y: int, Width: int, Height: int)

  /** XNA's Rectangle.Intersects: the two rectangles overlap on an area (touching edges do not count). */
  predicate Intersects(a: Rectangle, b: Rectangle)
  {
    a.X < b.X + b.Width && b.X < a.X + a.Width &&
    a.Y < b.Y + b.Height && b.Y < a.Y + a.Height
  }

  /** The keys the game polls: Up/Down move paddle 2, W/S move paddle 1, Enter serves. */
  datatype KeyboardState = KeyboardState(Up: bool, Down: bool, W: bool, S: bool, Enter: bool)

  /**
   * MathHelper.Clamp: first caps the value at max, then raises it to min, so min wins
   * when the bounds are crossed.
   */
  function Clamp(value: int, min: int, max: int): (r: int)
    ensures min <= r
    ensures min <= max ==> r <= max
    ensures min <= value <= max ==> r == value
    ensures min <= max < value ==> r == max
    ensures value < min ==> r == min
  {
    var capped := if value > max then max else value;
    if capped < min then min else capped
  }
}
