/** A paddle: its sprite, position, visibility flag and score. */
module PongPlayer {
  import opened Wrappers
  import opened Xna

  class Player {
    /** Null until Initialize is called. */
    var playerTexture: Option<Texture2D>
    var Position: Vector2
    var Active: bool
    var Score: int

    /** `new Player()`: every field holds the C# default. */
    constructor ()
      ensures playerTexture == None && Position == Vector2(0, 0)
      ensures !Active && Score == 0
    {
      playerTexture := None;
      Position := Vector2(0, 0);
      Active := false;
      Score := 0;
    }

    /** The width of the sprite; reading it before Initialize dereferences null. */
    function Width(): (w: nat)
      reads this`playerTexture
      requires playerTexture.Some?
      ensures w == playerTexture.value.Width
    {
      playerTexture.value.Width
    }

    /** The height of the sprite; reading it before Initialize dereferences null. */
    function Height(): (h: nat)
      reads this`playerTexture
      requires playerTexture.Some?
      ensures h == playerTexture.value.Height
    {
      playerTexture.value.Height
    }

    method Initialize(playerTexture: Texture2D, Position: Vector2)
      modifies this
      ensures this.playerTexture == Some(playerTexture) && this.Position == Position
      ensures Active && Score == 0
      ensures Width() == playerTexture.Width && Height() == playerTexture.Height
    {
      this.playerTexture := Some(playerTexture);
      this.Position := Position;
      Active := true;
      Score := 0;
    }

    /** The paddle has no behaviour of its own: the gameplay screen moves it. */
    method Update()
      ensures unchanged(this)
    {
    }
  }
}
