/** The pixel positioner and sprite transforms of main.js: where a cell's
    sprite is drawn, how a horizontal flip moves the draw position, what a
    rotation keeps, and how large the map's canvas is. Half-pixel values are
    exact multiples of 0.5, so they are kept as `real`. */
module Pixels {
  import opened Grid

  const CellWidth: int := 53
  const CellHeight: int := 27
  const CellHalfWidth: real := 26.5
  const CellHalfHeight: real := 13.5

  /** The horizontal pixel position of a cell's anchor: one cell width per
      column, plus half a cell on odd rows. Counted in half cells, the anchor
      sits on half-cell column `2 * x + y % 2`. */
  function PixelX(p: GridPos): (px: real)
    ensures 2.0 * px == ((2 * p.x + p.y % 2) * CellWidth) as real
  {
    p.x as real * CellWidth as real + (if p.y % 2 == 1 then CellHalfWidth else 0.0)
  }

  /** The vertical pixel position of a cell's anchor: each row is half a cell
      height below the previous one. */
  function PixelY(p: GridPos): (py: real)
    ensures 2.0 * py == (p.y * CellHeight) as real
  {
    p.y as real * CellHalfHeight
  }

  /** Distinct grid positions have distinct anchors. */
  lemma AnchorInjective(p: GridPos, q: GridPos)
    requires PixelX(p) == PixelX(q) && PixelY(p) == PixelY(q)
    ensures p == q
  {
  }

  /** The brick pattern: a cell on an odd row sits half a cell height below
      and exactly midway between the two cells above it on the even row. */
  lemma OddRowBetweenNeighbours(x: int, y: nat)
    requires y % 2 == 0
    ensures PixelX(GridPos(x, y + 1)) == (PixelX(GridPos(x, y)) + PixelX(GridPos(x + 1, y))) / 2.0
    ensures PixelY(GridPos(x, y + 1)) == PixelY(GridPos(x, y)) + CellHalfHeight
  {
  }

  /** For a map at least two cells wide no two non-negative cell ids share an
      anchor, so no two cells are drawn at the same base position. */
  lemma CellAnchorsDistinct(id1: int, id2: int, w: int)
    requires w >= 2 && 0 <= id1 && 0 <= id2 && id1 != id2
    ensures PixelX(CellPos(id1, w)) != PixelX(CellPos(id2, w))
            || PixelY(CellPos(id1, w)) != PixelY(CellPos(id2, w))
  {
  }

  /** The horizontal screen interval an image `width` pixels wide covers when
      drawn at `x`. Under the canvas transform scale(-1, 1) a drawing
      coordinate `x` lands on screen at `-x`. */
  function ScreenSpan(x: real, width: int, mirrored: bool): (real, real)
  {
    if mirrored then (-(x + width as real), -x) else (x, x + width as real)
  }

  /** The draw position of a flipped sprite: negated and moved left by the
      image's width. Drawn under the mirror transform it covers the same
      screen interval as the unflipped sprite drawn at `x`, and flipping back
      gives `x` again. */
  function FlipX(x: real, width: int): (fx: real)
    ensures ScreenSpan(fx, width, true) == ScreenSpan(x, width, false)
    ensures -fx - width as real == x
  {
    -x - width as real
  }

  /** A drawable bitmap: its size and how many quarter turns it has been
      rotated from the image it was loaded from. */
  datatype Image = Image(width: nat, height: nat, quarterTurns: int)

  /** rotateImage: the image is drawn rotated about its centre onto a new
      canvas of the same size, so width and height never change (a quarter
      turn of a non-square image is clipped, not resized). Turning by
      `steps * 90` degrees only matters modulo a full turn. */
  function RotateImage(image: Image, steps: int): (r: Image)
    ensures r.width == image.width && r.height == image.height
    ensures 0 <= r.quarterTurns < 4
  {
    Image(image.width, image.height, (image.quarterTurns + steps) % 4)
  }

  /** Four quarter turns give back the image. */
  lemma RotateFullTurn(image: Image)
    requires 0 <= image.quarterTurns < 4
    ensures RotateImage(image, 4) == image
  {
  }

  /** Rotating twice is rotating once by the sum of the steps. */
  lemma RotateCompose(image: Image, a: int, b: int)
    ensures RotateImage(RotateImage(image, a), b) == RotateImage(image, a + b)
  {
  }

  /** A flip adjusts the draw position by the image's width. Since rotation
      keeps the width, adjusting before rotating (the ground pass) and after
      rotating (the object-1 pass) give the same position. */
  lemma FlipRotateOrderIrrelevant(x: real, image: Image, steps: int)
    ensures FlipX(x, RotateImage(image, steps).width) == FlipX(x, image.width)
  {
  }

  datatype Size = Size(width: int, height: int)

  /** The canvas of a map `mapWidth` by `mapHeight` cells. It reaches across
      to the anchor of the last cell of the first row and down to the anchor
      of row `2 * (mapHeight - 1)`, since a map's height counts full cells,
      two grid rows each. */
  function CanvasSize(mapWidth: int, mapHeight: int): (s: Size)
    ensures mapWidth >= 1 ==> s.width as real == PixelX(GridPos(mapWidth - 1, 0))
    ensures mapHeight >= 1 ==> s.height as real == PixelY(GridPos(0, 2 * (mapHeight - 1)))
  {
    Size((mapWidth - 1) * CellWidth, (mapHeight - 1) * CellHeight)
  }

  /** A two-by-two map renders to a 53 by 27 canvas. */
  lemma TwoByTwoCanvas()
    ensures CanvasSize(2, 2) == Size(53, 27)
  {
  }
}
