/** The ball: its sprite, position and visibility flag. */
module PongBall {
  import opened Wrappers
  import opened Xna

  class Ball {
    /** Null until Initialize is called. */
    var ballTexture: Option<Texture2D>
    var Position: Vector2
    var Active: bool

    /** `new Ball()`: every field holds the C# default. */
    constructor ()
      ensures ballTexture == None && Position == Vector2(0, 0) && !Active
    {
      ballTexture := None;
      Position := Vector2(0, 0);
      Active := false;
    }

    /** The width of the sprite; reading it before Initialize dereferences null. */
    function Width(): (w: nat)
      reads this`ballTexture
      requires ballTexture.Some?
      ensures w == ballTexture.value.Width
    {
      ballTexture.value.Width
    }

    /** The height of the sprite; reading it before Initialize dereferences null. */
    function Height(): (h: nat)
      reads this`ballTexture
      requires ballTexture.Some?
      ensures h == ballTexture.value.Height
    {
      ballTexture.value.Height
    }

    method Initialize(ballTexture: Texture2D, Position: Vector2)
      modifies this
      ensures this.ballTexture == Some(ballTexture) && this.Position == Position && Active
      ensures Width() == ballTexture.Width && Height() == ballTexture.Height
    {
      this.ballTexture := Some(ballTexture);
      this.Position := Position;
      Active := true;
    }

    /** The ball has no behaviour of its own: the gameplay screen moves it. */
    method Update()
      ensures unchanged(this)
    {
    }
  }
}
