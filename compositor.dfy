/** The layer compositor of main.js (generateMap): the background, then one
    pass per sprite layer over the map's cells (ground, object 1, object 2),
    each drawing onto one canvas. The canvas is modelled as the list of draw
    commands it received; the fetched map data, sprite metadata and image
    sizes are inputs. */
module Compositor {
  import opened Grid
  import opened Pixels

  /** One entry of the map's cell list. A layer number of 0 or less means
      nothing is drawn on that layer; object 2 has no rotation. */
  datatype Cell = Cell(
    id: int,
    groundNum: int, groundFlip: bool, groundRot: int,
    object1Num: int, object1Flip: bool, object1Rot: int,
    object2Num: int, object2Flip: bool)

  datatype MapData = MapData(width: int, height: int, backgroundNum: int, cells: seq<Cell>)

  /** A sprite's registered origin, added to the cell's pixel position. */
  datatype Origin = Origin(x: int, y: int)

  /** The size of an image as loaded from its PNG file. */
  datatype Bitmap = Bitmap(width: nat, height: nat)

  /** What the asset service provides: the loadable images and the sprite
      metadata, one table each for the ground sheet and the object sheet.
      A missing key is an image or metadata entry that cannot be had. */
  datatype Assets = Assets(
    groundImages: map<int, Bitmap>, groundOrigins: map<int, Origin>,
    objectImages: map<int, Bitmap>, objectOrigins: map<int, Origin>)

  datatype Sheet = GroundSheet | ObjectSheet

  datatype Failure =
    | NoData                            // the map has an empty cell list
    | ImageUnavailable(sheet: Sheet, asset: int)
    | OriginMissing(sheet: Sheet, asset: int)

  datatype Result<T> = Ok(value: T) | Err(failure: Failure)

  datatype Layer = Background | Ground | Object1 | Object2

  /** The layers drawn cell by cell, in one pass each. */
  type SpriteLayer = l: Layer | l != Background witness Ground

  /** One drawImage call: the layer and asset drawn, the draw position, the
      size drawn, whether the call runs under the mirror transform, and the
      quarter turns of the drawn image. */
  datatype Draw = Draw(layer: Layer, asset: int, x: real, y: real,
                       width: int, height: int, flip: bool, quarterTurns: int)

  /** The finished canvas: its size and every draw it received, in order. */
  datatype Raster = Raster(width: int, height: int, draws: seq<Draw>)

  /** The canvas generateMap draws on. */
  class Canvas {
    const width: int
    const height: int
    var draws: seq<Draw>

    constructor (width: int, height: int)
      ensures this.width == width && this.height == height && draws == []
    {
      this.width := width;
      this.height := height;
      draws := [];
    }

    method DrawImage(d: Draw)
      modifies this
      ensures draws == old(draws) + [d]
    {
      draws := draws + [d];
    }
  }

  /** An image as loaded: not rotated. */
  function Load(b: Bitmap): Image
  {
    Image(b.width, b.height, 0)
  }

  /** The pixel position of a cell plus a sprite's origin, added with no
      scaling: less the origin, the position is on the cell's half-cell column
      and half-row, whatever the origin. */
  function BasePosition(cellId: int, mapWidth: int, o: Origin): (r: (real, real))
    requires mapWidth >= 1
    ensures var p := CellPos(cellId, mapWidth);
            2.0 * (r.0 - o.x as real) == ((2 * p.x + p.y % 2) * CellWidth) as real
            && 2.0 * (r.1 - o.y as real) == (p.y * CellHeight) as real
  {
    var p := CellPos(cellId, mapWidth);
    (PixelX(p) + o.x as real, PixelY(p) + o.y as real)
  }

  /** Draw `d` shows an image of `b`'s size placed at the cell's pixel
      position plus origin `o`: whatever the flip, it covers on screen the
      interval an unflipped draw at that position covers. */
  ghost predicate Placed(d: Draw, cellId: int, mapWidth: int, o: Origin, b: Bitmap)
    requires mapWidth >= 1
  {
    var (x, y) := BasePosition(cellId, mapWidth, o);
    d.width == b.width && d.height == b.height && d.y == y
    && ScreenSpan(d.x, d.width, d.flip) == ScreenSpan(x, b.width, false)
  }

  /** The quarter turns a layer's rotation number gives a loaded image: none
      unless the number is positive, and a turn of `rot * 90` degrees
      otherwise, which only matters modulo a full turn. */
  function TurnsFor(rot: int): int
  {
    if rot > 0 then rot % 4 else 0
  }

  /** The ground draw of one cell: load the image, position it, adjust for
      the flip with the unrotated width, then rotate. */
  function GroundDraw(c: Cell, mapWidth: int, a: Assets): (r: Result<Draw>)
    requires mapWidth >= 1
    ensures r.Ok? <==> c.groundNum in a.groundImages && c.groundNum in a.groundOrigins
    ensures c.groundNum !in a.groundImages ==> r == Err(ImageUnavailable(GroundSheet, c.groundNum))
    ensures c.groundNum in a.groundImages && c.groundNum !in a.groundOrigins
            ==> r == Err(OriginMissing(GroundSheet, c.groundNum))
    ensures r.Ok? ==> r.value.layer == Ground && r.value.asset == c.groundNum
                      && r.value.flip == c.groundFlip
                      && r.value.quarterTurns == TurnsFor(c.groundRot)
                      && Placed(r.value, c.id, mapWidth, a.groundOrigins[c.groundNum],
                                a.groundImages[c.groundNum])
  {
    if c.groundNum !in a.groundImages then Err(ImageUnavailable(GroundSheet, c.groundNum))
    else
      var image := Load(a.groundImages[c.groundNum]);
      if c.groundNum !in a.groundOrigins then Err(OriginMissing(GroundSheet, c.groundNum))
      else
        var (x, y) := BasePosition(c.id, mapWidth, a.groundOrigins[c.groundNum]);
        var drawX := if c.groundFlip then FlipX(x, image.width) else x;
        var drawn := if c.groundRot > 0 then RotateImage(image, c.groundRot) else image;
        Ok(Draw(Ground, c.groundNum, drawX, y, drawn.width, drawn.height,
                c.groundFlip, drawn.quarterTurns))
  }

  /** The object-1 draw of one cell: load the image, rotate it, position it,
      then adjust for the flip with the rotated image's width. */
  function Object1Draw(c: Cell, mapWidth: int, a: Assets): (r: Result<Draw>)
    requires mapWidth >= 1
    ensures r.Ok? <==> c.object1Num in a.objectImages && c.object1Num in a.objectOrigins
    ensures c.object1Num !in a.objectImages ==> r == Err(ImageUnavailable(ObjectSheet, c.object1Num))
    ensures c.object1Num in a.objectImages && c.object1Num !in a.objectOrigins
            ==> r == Err(OriginMissing(ObjectSheet, c.object1Num))
    ensures r.Ok? ==> r.value.layer == Object1 && r.value.asset == c.object1Num
                      && r.value.flip == c.object1Flip
                      && r.value.quarterTurns == TurnsFor(c.object1Rot)
                      && Placed(r.value, c.id, mapWidth, a.objectOrigins[c.object1Num],
                                a.objectImages[c.object1Num])
  {
    if c.object1Num !in a.objectImages then Err(ImageUnavailable(ObjectSheet, c.object1Num))
    else
      var loaded := Load(a.objectImages[c.object1Num]);
      if c.object1Num !in a.objectOrigins then Err(OriginMissing(ObjectSheet, c.object1Num))
      else
        var image := if c.object1Rot > 0 then RotateImage(loaded, c.object1Rot) else loaded;
        var (x, y) := BasePosition(c.id, mapWidth, a.objectOrigins[c.object1Num]);
        var drawX := if c.object1Flip then FlipX(x, image.width) else x;
        Ok(Draw(Object1, c.object1Num, drawX, y, image.width, image.height,
                c.object1Flip, image.quarterTurns))
  }

  /** The object-2 draw of one cell: as object 1, but never rotated. */
  function Object2Draw(c: Cell, mapWidth: int, a: Assets): (r: Result<Draw>)
    requires mapWidth >= 1
    ensures r.Ok? <==> c.object2Num in a.objectImages && c.object2Num in a.objectOrigins
    ensures c.object2Num !in a.objectImages ==> r == Err(ImageUnavailable(ObjectSheet, c.object2Num))
    ensures c.object2Num in a.objectImages && c.object2Num !in a.objectOrigins
            ==> r == Err(OriginMissing(ObjectSheet, c.object2Num))
    ensures r.Ok? ==> r.value.layer == Object2 && r.value.asset == c.object2Num
                      && r.value.flip == c.object2Flip && r.value.quarterTurns == 0
                      && Placed(r.value, c.id, mapWidth, a.objectOrigins[c.object2Num],
                                a.objectImages[c.object2Num])
  {
    if c.object2Num !in a.objectImages then Err(ImageUnavailable(ObjectSheet, c.object2Num))
    else
      var image := Load(a.objectImages[c.object2Num]);
      if c.object2Num !in a.objectOrigins then Err(OriginMissing(ObjectSheet, c.object2Num))
      else
        var (x, y) := BasePosition(c.id, mapWidth, a.objectOrigins[c.object2Num]);
        var drawX := if c.object2Flip then FlipX(x, image.width) else x;
        Ok(Draw(Object2, c.object2Num, drawX, y, image.width, image.height,
                c.object2Flip, image.quarterTurns))
  }

  /** The layer number a cell gives a sprite layer. */
  function LayerNum(c: Cell, l: SpriteLayer): int
  {
    match l
    case Ground => c.groundNum
    case Object1 => c.object1Num
    case Object2 => c.object2Num
  }

  function CellDraw(c: Cell, l: SpriteLayer, mapWidth: int, a: Assets): Result<Draw>
    requires mapWidth >= 1
  {
    match l
    case Ground => GroundDraw(c, mapWidth, a)
    case Object1 => Object1Draw(c, mapWidth, a)
    case Object2 => Object2Draw(c, mapWidth, a)
  }

  /** The image and the metadata a cell needs on a sprite layer are both there. */
  predicate Available(c: Cell, l: SpriteLayer, a: Assets)
  {
    match l
    case Ground => c.groundNum in a.groundImages && c.groundNum in a.groundOrigins
    case Object1 => c.object1Num in a.objectImages && c.object1Num in a.objectOrigins
    case Object2 => c.object2Num in a.objectImages && c.object2Num in a.objectOrigins
  }

  /** The number of cells with something to draw on layer `l`. */
  function Drawn(cells: seq<Cell>, l: SpriteLayer): nat
  {
    if cells == [] then 0
    else Drawn(cells[..|cells| - 1], l) + (if LayerNum(cells[|cells| - 1], l) > 0 then 1 else 0)
  }

  /** One draw after another: the first failure stops everything. */
  function Then(first: Result<seq<Draw>>, next: Result<seq<Draw>>): Result<seq<Draw>>
  {
    if first.Err? then first
    else if next.Err? then next
    else Ok(first.value + next.value)
  }

  /** One pass of generateMap over the cells, in ascending order, on sprite
      layer `l`: cells whose layer number is 0 or less are skipped, and the
      first cell whose image or metadata cannot be had aborts the pass. */
  function Pass(cells: seq<Cell>, l: SpriteLayer, mapWidth: int, a: Assets): (r: Result<seq<Draw>>)
    requires mapWidth >= 1
    ensures r.Ok? <==> forall i :: 0 <= i < |cells| && LayerNum(cells[i], l) > 0
                                  ==> Available(cells[i], l, a)
    ensures r.Err? ==> r.failure != NoData
    ensures r.Ok? ==> |r.value| == Drawn(cells, l)
    ensures r.Ok? ==> forall d :: d in r.value ==>
                        d.layer == l && d.asset > 0 && 0 <= d.quarterTurns < 4
                        && (l == Object2 ==> d.quarterTurns == 0)
    decreases |cells|
  {
    if cells == [] then Ok([])
    else
      var last := cells[|cells| - 1];
      var prev := Pass(cells[..|cells| - 1], l, mapWidth, a);
      if LayerNum(last, l) <= 0 then prev
      else
        var d := CellDraw(last, l, mapWidth, a);
        Then(prev, if d.Err? then Err(d.failure) else Ok([d.value]))
  }

  /** The background, when the map has one: loaded from the ground sheet and
      drawn once at the top-left corner, stretched over the whole canvas. */
  function BackgroundDraws(m: MapData, a: Assets): (r: Result<seq<Draw>>)
    ensures r.Ok? <==> m.backgroundNum <= 0 || m.backgroundNum in a.groundImages
    ensures m.backgroundNum <= 0 ==> r == Ok([])
    ensures m.backgroundNum > 0 && r.Ok?
            ==> r.value == [Draw(Background, m.backgroundNum, 0.0, 0.0,
                                 CanvasSize(m.width, m.height).width,
                                 CanvasSize(m.width, m.height).height, false, 0)]
    ensures r.Err? ==> r == Err(ImageUnavailable(GroundSheet, m.backgroundNum))
  {
    if m.backgroundNum <= 0 then Ok([])
    else if m.backgroundNum !in a.groundImages then Err(ImageUnavailable(GroundSheet, m.backgroundNum))
    else
      var size := CanvasSize(m.width, m.height);
      var image := Load(a.groundImages[m.backgroundNum]);
      Ok([Draw(Background, m.backgroundNum, 0.0, 0.0, size.width, size.height, false, image.quarterTurns)])
  }

  /** Every image and metadata entry the map refers to can be had. */
  ghost predicate Resolvable(m: MapData, a: Assets)
  {
    (m.backgroundNum > 0 ==> m.backgroundNum in a.groundImages)
    && forall i, l: SpriteLayer :: 0 <= i < |m.cells| && LayerNum(m.cells[i], l) > 0
                      ==> Available(m.cells[i], l, a)
  }

  /** What generateMap renders: no data when the cell list is empty; else the
      background, the ground pass, the object-1 pass and the object-2 pass, in
      that order, on a canvas of the map's size, unless an asset is missing. */
  function Render(m: MapData, a: Assets): (r: Result<Raster>)
    requires m.width >= 1
    ensures r == Err(NoData) <==> |m.cells| == 0
    ensures r.Ok? <==> |m.cells| > 0 && Resolvable(m, a)
    ensures r.Ok? ==> r.value.width == (m.width - 1) * CellWidth
                      && r.value.height == (m.height - 1) * CellHeight
  {
    if |m.cells| == 0 then Err(NoData)
    else
      var size := CanvasSize(m.width, m.height);
      var draws := Then(Then(Then(BackgroundDraws(m, a),
                                  Pass(m.cells, Ground, m.width, a)),
                             Pass(m.cells, Object1, m.width, a)),
                        Pass(m.cells, Object2, m.width, a));
      if draws.Err? then Err(draws.failure) else Ok(Raster(size.width, size.height, draws.value))
  }

  lemma ThenAssociative(x: Result<seq<Draw>>, y: Result<seq<Draw>>, z: Result<seq<Draw>>)
    ensures Then(Then(x, y), z) == Then(x, Then(y, z))
  {
    if x.Ok? && y.Ok? && z.Ok? {
      assert (x.value + y.value) + z.value == x.value + (y.value + z.value);
    }
  }

  /** A pass over two runs of cells draws the first run's cells and then the
      second's: the draws follow the cells in ascending order. */
  lemma {:induction false} PassAppend(xs: seq<Cell>, ys: seq<Cell>, l: SpriteLayer, mapWidth: int, a: Assets)
    requires mapWidth >= 1
    ensures Pass(xs + ys, l, mapWidth, a) == Then(Pass(xs, l, mapWidth, a), Pass(ys, l, mapWidth, a))
    decreases |ys|
  {
    if ys == [] {
      assert xs + ys == xs;
      if Pass(xs, l, mapWidth, a).Ok? {
        assert Pass(xs, l, mapWidth, a).value + [] == Pass(xs, l, mapWidth, a).value;
      }
    } else {
      var init := ys[..|ys| - 1];
      assert (xs + ys)[..|xs + ys| - 1] == xs + init;
      PassAppend(xs, init, l, mapWidth, a);
      var last := ys[|ys| - 1];
      if LayerNum(last, l) > 0 {
        var d := CellDraw(last, l, mapWidth, a);
        ThenAssociative(Pass(xs, l, mapWidth, a), Pass(init, l, mapWidth, a),
                        if d.Err? then Err(d.failure) else Ok([d.value]));
      }
    }
  }

  /** A pass over a single cell: nothing when its layer number is 0 or
      less, otherwise that cell's draw or the failure to make it. */
  lemma PassSingleCell(c: Cell, l: SpriteLayer, mapWidth: int, a: Assets)
    requires mapWidth >= 1
    ensures Pass([c], l, mapWidth, a)
            == if LayerNum(c, l) <= 0 then Ok([])
               else if CellDraw(c, l, mapWidth, a).Err? then Err(CellDraw(c, l, mapWidth, a).failure)
               else Ok([CellDraw(c, l, mapWidth, a).value])
  {
    assert [c][..0] == [];
    if LayerNum(c, l) > 0 && CellDraw(c, l, mapWidth, a).Ok? {
      assert [] + [CellDraw(c, l, mapWidth, a).value] == [CellDraw(c, l, mapWidth, a).value];
    }
  }

  /** When cell `i` is the first one that cannot be drawn, the whole pass
      fails with that cell's failure. */
  lemma PassStopsAt(cells: seq<Cell>, i: nat, l: SpriteLayer, mapWidth: int, a: Assets)
    requires mapWidth >= 1 && i < |cells|
    requires Pass(cells[..i], l, mapWidth, a).Ok?
    requires LayerNum(cells[i], l) > 0 && CellDraw(cells[i], l, mapWidth, a).Err?
    ensures Pass(cells, l, mapWidth, a) == Err(CellDraw(cells[i], l, mapWidth, a).failure)
  {
    assert cells[..i + 1][..i] == cells[..i];
    assert cells == cells[..i + 1] + cells[i + 1..];
    PassAppend(cells[..i + 1], cells[i + 1..], l, mapWidth, a);
  }

  /** One more cell: the pass over the first `i + 1` cells adds that cell's
      draw, if it has one, to the pass over the first `i`. */
  lemma PassExtend(cells: seq<Cell>, i: nat, l: SpriteLayer, mapWidth: int, a: Assets)
    requires mapWidth >= 1 && i < |cells|
    requires Pass(cells[..i], l, mapWidth, a).Ok?
    requires LayerNum(cells[i], l) > 0 ==> CellDraw(cells[i], l, mapWidth, a).Ok?
    ensures Pass(cells[..i + 1], l, mapWidth, a).Ok?
    ensures Pass(cells[..i + 1], l, mapWidth, a).value
            == Pass(cells[..i], l, mapWidth, a).value
               + if LayerNum(cells[i], l) > 0 then [CellDraw(cells[i], l, mapWidth, a).value] else []
  {
    assert cells[..i + 1][..i] == cells[..i];
    if LayerNum(cells[i], l) <= 0 {
      assert Pass(cells[..i], l, mapWidth, a).value + [] == Pass(cells[..i], l, mapWidth, a).value;
    }
  }

  function Rank(l: Layer): nat
  {
    match l
    case Background => 0
    case Ground => 1
    case Object1 => 2
    case Object2 => 3
  }

  ghost predicate LayerOrdered(draws: seq<Draw>)
  {
    forall i, j :: 0 <= i < j < |draws| ==> Rank(draws[i].layer) <= Rank(draws[j].layer)
  }

  /** The draws of a rendered map are ordered by layer: the background, then
      every ground draw, then every object-1 draw, then every object-2 draw,
      so later layers cover earlier ones. */
  lemma RenderLayerOrder(m: MapData, a: Assets)
    requires m.width >= 1 && Render(m, a).Ok?
    ensures LayerOrdered(Render(m, a).value.draws)
  {
  }

  /** A rendered map holds one draw for the background when it has one and
      one per cell and sprite layer whose layer number is positive; the
      background draw, if any, comes first and is stretched over the whole
      canvas, and no object-2 draw is rotated. */
  lemma RenderDraws(m: MapData, a: Assets)
    requires m.width >= 1 && Render(m, a).Ok?
    ensures var r := Render(m, a).value;
            |r.draws| == (if m.backgroundNum > 0 then 1 else 0)
                         + Drawn(m.cells, Ground) + Drawn(m.cells, Object1) + Drawn(m.cells, Object2)
    ensures var r := Render(m, a).value;
            m.backgroundNum > 0 ==> r.draws[0] == Draw(Background, m.backgroundNum, 0.0, 0.0,
                                                       r.width, r.height, false, 0)
    ensures var r := Render(m, a).value;
            forall i :: 0 <= i < |r.draws| && r.draws[i].layer == Background
                        ==> i == 0 && m.backgroundNum > 0
    ensures forall d :: d in Render(m, a).value.draws && d.layer == Object2 ==> d.quarterTurns == 0
  {
  }

  /** A two-by-two map whose only cell, id 0, holds ground sprite 7 renders
      to a 53 by 27 canvas with that one sprite drawn at its origin. */
  lemma SingleGroundCell(a: Assets, o: Origin, b: Bitmap)
    requires 7 in a.groundImages && a.groundImages[7] == b
    requires 7 in a.groundOrigins && a.groundOrigins[7] == o
    ensures Render(MapData(2, 2, 0, [Cell(0, 7, false, 0, 0, false, 0, 0, false)]), a)
            == Ok(Raster(53, 27, [Draw(Ground, 7, o.x as real, o.y as real, b.width, b.height, false, 0)]))
  {
    var c := Cell(0, 7, false, 0, 0, false, 0, 0, false);
    PassSingleCell(c, Ground, 2, a);
    PassSingleCell(c, Object1, 2, a);
    PassSingleCell(c, Object2, 2, a);
    var m := MapData(2, 2, 0, [c]);
    assert CellPos(0, 2) == GridPos(0, 0);
    assert BasePosition(0, 2, o) == (o.x as real, o.y as real);
    var d := Draw(Ground, 7, o.x as real, o.y as real, b.width, b.height, false, 0);
    assert GroundDraw(c, 2, a) == Ok(d);
    assert Pass([c], Ground, 2, a) == Ok([d]);
    assert BackgroundDraws(m, a) == Ok([]);
    assert [] + [d] == [d] && [d] + [] == [d];
  }

  /** How a pass of generateMap ended: every cell drawn, or aborted. */
  datatype Outcome = Done | Aborted(failure: Failure)

  /** The body of generateMap's ground loop for a cell with a ground sprite:
      load the image, position it, adjust for the flip with the unrotated
      width, rotate, draw. A missing image or origin aborts with nothing drawn. */
  method DrawGroundCell(canvas: Canvas, cell: Cell, mapWidth: int, a: Assets) returns (outcome: Outcome)
    requires mapWidth >= 1
    modifies canvas
    ensures var d := GroundDraw(cell, mapWidth, a);
            if d.Ok? then outcome == Done && canvas.draws == old(canvas.draws) + [d.value]
            else outcome == Aborted(d.failure) && canvas.draws == old(canvas.draws)
  {
    if cell.groundNum !in a.groundImages {
      return Aborted(ImageUnavailable(GroundSheet, cell.groundNum));
    }
    var groundImage := Load(a.groundImages[cell.groundNum]);
    var cellPos := GetCellPos(cell.id, mapWidth);
    var y := PixelY(cellPos);
    var x := PixelX(cellPos);
    if cell.groundNum !in a.groundOrigins {
      return Aborted(OriginMissing(GroundSheet, cell.groundNum));
    }
    var origin := a.groundOrigins[cell.groundNum];
    var posX, posY := x + origin.x as real, y + origin.y as real;
    if cell.groundFlip {
      posX := FlipX(posX, groundImage.width);
    }
    if cell.groundRot > 0 {
      groundImage := RotateImage(groundImage, cell.groundRot);
    }
    canvas.DrawImage(Draw(Ground, cell.groundNum, posX, posY, groundImage.width, groundImage.height,
                          cell.groundFlip, groundImage.quarterTurns));
    return Done;
  }

  /** The ground loop of generateMap: the canvas receives exactly the pass's
      draws, or the pass aborts with the failure of its first bad cell. */
  method GroundPass(canvas: Canvas, cells: seq<Cell>, mapWidth: int, a: Assets)
    returns (outcome: Outcome)
    requires mapWidth >= 1
    modifies canvas
    ensures var p := Pass(cells, Ground, mapWidth, a);
            if p.Ok? then outcome == Done && canvas.draws == old(canvas.draws) + p.value
            else outcome == Aborted(p.failure)
    ensures outcome.Aborted? ==>
              exists k :: 0 <= k < |cells| && Pass(cells[..k], Ground, mapWidth, a).Ok?
                          && LayerNum(cells[k], Ground) > 0 && CellDraw(cells[k], Ground, mapWidth, a).Err?
                          && canvas.draws == old(canvas.draws) + Pass(cells[..k], Ground, mapWidth, a).value
  {
    for i := 0 to |cells|
      invariant Pass(cells[..i], Ground, mapWidth, a).Ok?
      invariant canvas.draws == old(canvas.draws) + Pass(cells[..i], Ground, mapWidth, a).value
    {
      if cells[i].groundNum > 0 {
        outcome := DrawGroundCell(canvas, cells[i], mapWidth, a);
        if outcome.Aborted? {
          PassStopsAt(cells, i, Ground, mapWidth, a);
          return;
        }
      }
      PassExtend(cells, i, Ground, mapWidth, a);
    }
    assert cells[..|cells|] == cells;
    return Done;
  }

  /** The body of the object-1 loop: load, rotate, position, adjust for the
      flip with the rotated width, draw. */
  method DrawObject1Cell(canvas: Canvas, cell: Cell, mapWidth: int, a: Assets) returns (outcome: Outcome)
    requires mapWidth >= 1
    modifies canvas
    ensures var d := Object1Draw(cell, mapWidth, a);
            if d.Ok? then outcome == Done && canvas.draws == old(canvas.draws) + [d.value]
            else outcome == Aborted(d.failure) && canvas.draws == old(canvas.draws)
  {
    if cell.object1Num !in a.objectImages {
      return Aborted(ImageUnavailable(ObjectSheet, cell.object1Num));
    }
    var image := Load(a.objectImages[cell.object1Num]);
    var cellPos := GetCellPos(cell.id, mapWidth);
    var y := PixelY(cellPos);
    var x := PixelX(cellPos);
    if cell.object1Num !in a.objectOrigins {
      return Aborted(OriginMissing(ObjectSheet, cell.object1Num));
    }
    var origin := a.objectOrigins[cell.object1Num];
    if cell.object1Rot > 0 {
      image := RotateImage(image, cell.object1Rot);
    }
    var posX, posY := x + origin.x as real, y + origin.y as real;
    if cell.object1Flip {
      posX := FlipX(posX, image.width);
    }
    canvas.DrawImage(Draw(Object1, cell.object1Num, posX, posY, image.width, image.height,
                          cell.object1Flip, image.quarterTurns));
    return Done;
  }

  /** The object-1 loop of generateMap, as the ground loop. */
  method Object1Pass(canvas: Canvas, cells: seq<Cell>, mapWidth: int, a: Assets)
    returns (outcome: Outcome)
    requires mapWidth >= 1
    modifies canvas
    ensures var p := Pass(cells, Object1, mapWidth, a);
            if p.Ok? then outcome == Done && canvas.draws == old(canvas.draws) + p.value
            else outcome == Aborted(p.failure)
    ensures outcome.Aborted? ==>
              exists k :: 0 <= k < |cells| && Pass(cells[..k], Object1, mapWidth, a).Ok?
                          && LayerNum(cells[k], Object1) > 0 && CellDraw(cells[k], Object1, mapWidth, a).Err?
                          && canvas.draws == old(canvas.draws) + Pass(cells[..k], Object1, mapWidth, a).value
  {
    for i := 0 to |cells|
      invariant Pass(cells[..i], Object1, mapWidth, a).Ok?
      invariant canvas.draws == old(canvas.draws) + Pass(cells[..i], Object1, mapWidth, a).value
    {
      if cells[i].object1Num > 0 {
        outcome := DrawObject1Cell(canvas, cells[i], mapWidth, a);
        if outcome.Aborted? {
          PassStopsAt(cells, i, Object1, mapWidth, a);
          return;
        }
      }
      PassExtend(cells, i, Object1, mapWidth, a);
    }
    assert cells[..|cells|] == cells;
    return Done;
  }

  /** The body of the object-2 loop: load, position, adjust for the flip,
      draw; no rotation. */
  method DrawObject2Cell(canvas: Canvas, cell: Cell, mapWidth: int, a: Assets) returns (outcome: Outcome)
    requires mapWidth >= 1
    modifies canvas
    ensures var d := Object2Draw(cell, mapWidth, a);
            if d.Ok? then outcome == Done && canvas.draws == old(canvas.draws) + [d.value]
            else outcome == Aborted(d.failure) && canvas.draws == old(canvas.draws)
  {
    if cell.object2Num !in a.objectImages {
      return Aborted(ImageUnavailable(ObjectSheet, cell.object2Num));
    }
    var image := Load(a.objectImages[cell.object2Num]);
    var cellPos := GetCellPos(cell.id, mapWidth);
    var y := PixelY(cellPos);
    var x := PixelX(cellPos);
    if cell.object2Num !in a.objectOrigins {
      return Aborted(OriginMissing(ObjectSheet, cell.object2Num));
    }
    var origin := a.objectOrigins[cell.object2Num];
    var posX, posY := x + origin.x as real, y + origin.y as real;
    if cell.object2Flip {
      posX := FlipX(posX, image.width);
    }
    canvas.DrawImage(Draw(Object2, cell.object2Num, posX, posY, image.width, image.height,
                          cell.object2Flip, image.quarterTurns));
    return Done;
  }

  /** The object-2 loop of generateMap, as the ground loop. */
  method Object2Pass(canvas: Canvas, cells: seq<Cell>, mapWidth: int, a: Assets)
    returns (outcome: Outcome)
    requires mapWidth >= 1
    modifies canvas
    ensures var p := Pass(cells, Object2, mapWidth, a);
            if p.Ok? then outcome == Done && canvas.draws == old(canvas.draws) + p.value
            else outcome == Aborted(p.failure)
    ensures outcome.Aborted? ==>
              exists k :: 0 <= k < |cells| && Pass(cells[..k], Object2, mapWidth, a).Ok?
                          && LayerNum(cells[k], Object2) > 0 && CellDraw(cells[k], Object2, mapWidth, a).Err?
                          && canvas.draws == old(canvas.draws) + Pass(cells[..k], Object2, mapWidth, a).value
  {
    for i := 0 to |cells|
      invariant Pass(cells[..i], Object2, mapWidth, a).Ok?
      invariant canvas.draws == old(canvas.draws) + Pass(cells[..i], Object2, mapWidth, a).value
    {
      if cells[i].object2Num > 0 {
        outcome := DrawObject2Cell(canvas, cells[i], mapWidth, a);
        if outcome.Aborted? {
          PassStopsAt(cells, i, Object2, mapWidth, a);
          return;
        }
      }
      PassExtend(cells, i, Object2, mapWidth, a);
    }
    assert cells[..|cells|] == cells;
    return Done;
  }

  /** generateMap: abort with no data on an empty cell list, else draw the
      background and the three passes onto a fresh canvas and return it,
      aborting at the first image or metadata entry that cannot be had. */
  method GenerateMap(m: MapData, a: Assets) returns (r: Result<Raster>)
    requires m.width >= 1
    ensures r == Render(m, a)
  {
    if |m.cells| == 0 {
      return Err(NoData);
    }
    var size := CanvasSize(m.width, m.height);
    var canvas := new Canvas(size.width, size.height);
    if m.backgroundNum > 0 {
      if m.backgroundNum !in a.groundImages {
        return Err(ImageUnavailable(GroundSheet, m.backgroundNum));
      }
      var backgroundImage := Load(a.groundImages[m.backgroundNum]);
      canvas.DrawImage(Draw(Background, m.backgroundNum, 0.0, 0.0, canvas.width, canvas.height,
                            false, backgroundImage.quarterTurns));
      assert canvas.draws == [canvas.draws[0]];
    }
    assert BackgroundDraws(m, a) == Ok(canvas.draws);
    var outcome := GroundPass(canvas, m.cells, m.width, a);
    if outcome.Aborted? {
      return Err(outcome.failure);
    }
    outcome := Object1Pass(canvas, m.cells, m.width, a);
    if outcome.Aborted? {
      return Err(outcome.failure);
    }
    outcome := Object2Pass(canvas, m.cells, m.width, a);
    if outcome.Aborted? {
      return Err(outcome.failure);
    }
    r := Ok(Raster(canvas.width, canvas.height, canvas.draws));
  }
}
