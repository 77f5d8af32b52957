/** The game's global constants: window size, frame rate, palette and the
    collision boundary that confines the player and anchors the boss's
    corner pattern. */
module Settings {
  import opened Vectors

  const Width: int := 768
  const Height: int := 768
  const Fps: int := 60

  /** An RGB triple as pygame takes it. */
  datatype Rgb = Rgb(r: int, g: int, b: int)

  predicate IsRgb(c: Rgb) {
    0 <= c.r <= 255 && 0 <= c.g <= 255 && 0 <= c.b <= 255
  }

  const White: Rgb := Rgb(255, 255, 255)
  const Black: Rgb := Rgb(0, 0, 0)
  const Red: Rgb := Rgb(255, 0, 0)
  const Green: Rgb := Rgb(0, 255, 0)
  const Blue: Rgb := Rgb(65, 65, 255)
  const Yellow: Rgb := Rgb(255, 255, 0)
  const Purple: Rgb := Rgb(200, 0, 200)

  /** A pygame `Rect`: integer top-left corner and size. */
  datatype Rect = Rect(x: int, y: int, w: int, h: int) {
    function Left(): int { x }
    function Top(): int { y }
    function Right(): int { x + w }
    function Bottom(): int { y + h }

    /** `other` lies entirely inside this rectangle. */
    predicate Contains(other: Rect) {
      x <= other.x && other.Right() <= Right() && y <= other.y && other.Bottom() <= Bottom()
    }
  }

  const Window: Rect := Rect(0, 0, Width, Height)

  /** The boundary is the window scaled by 837/1024; `int()` truncates the
      product and `//` halves the margin. */
  const CollisionRatio: real := 837.0 / 1024.0
  const CollisionWidth: int := TruncInt(Width as real * CollisionRatio)
  const CollisionHeight: int := TruncInt(Height as real * CollisionRatio)
  const CollisionX: int := (Width - CollisionWidth) / 2
  const CollisionY: int := (Height - CollisionHeight) / 2
  const CollisionRect: Rect := Rect(CollisionX, CollisionY, CollisionWidth, CollisionHeight)

  /** The derived boundary is the square (70, 70, 627, 627), centred in the
      window up to the one pixel the halving drops. */
  lemma CollisionGeometry()
    ensures CollisionWidth == 627 && CollisionHeight == 627
    ensures CollisionX == 70 && CollisionY == 70
    ensures CollisionRect.Right() == 697 && CollisionRect.Bottom() == 697
    ensures Window.Contains(CollisionRect)
    ensures CollisionRect.Left() - Window.Left() <= Window.Right() - CollisionRect.Right() <= CollisionRect.Left() - Window.Left() + 1
  {
    assert Width as real * CollisionRatio == 627.75;
    assert Height as real * CollisionRatio == 627.75;
  }

  /** The boundary as the literal rectangle it evaluates to. */
  lemma CollisionRectIs()
    ensures CollisionRect == Rect(70, 70, 627, 627)
  {
    CollisionGeometry();
  }

  /** Every named colour is a valid RGB triple. */
  lemma PaletteIsRgb()
    ensures IsRgb(White) && IsRgb(Black) && IsRgb(Red) && IsRgb(Green)
    ensures IsRgb(Blue) && IsRgb(Yellow) && IsRgb(Purple)
    ensures Width == Height && Fps == 60
  {
  }
}
