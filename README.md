# MapRenderer-DR core: grid projection and layer compositing

This project models the part of `main.js` that turns a map into a picture:

- **Grid projection** (`getCellPos`). A cell id becomes a column and row on the map's brick (diamond) grid. Even rows hold as many cells as the map is wide. Odd rows are shifted half a cell and hold one fewer.
- **Pixel positioning and sprite transforms.** The position in pixels is `y * 13.5` down and `x * 53` across, plus 26.5 on odd rows, plus the sprite's registered origin. A flipped sprite is drawn at `-x - width` under a mirror transform. A rotation keeps the image's size.
- **Compositing** (`generateMap`). An empty cell list aborts with no data. Otherwise the canvas is `(width - 1) * 53` by `(height - 1) * 27`. It receives the stretched background, then the ground pass, the object-1 pass and the object-2 pass. Each pass goes over the cells in ascending order and skips layer numbers of 0 or less. A missing image or metadata entry aborts the render.

The canvas is modelled as the list of draw commands it receives (`Compositor.Canvas`, `Compositor.Draw`). Each command holds the layer, asset id, position, drawn size, flip flag and quarter turns. Each pass loop is proved to append exactly the draws of a recursive specification (`Compositor.Pass`). The whole render is proved equal to `Compositor.Render`, which composes the background and the three passes.

Modules:

- `Grid` (`grid.dfy`): `getCellPos` as a loop method (`GetCellPos`) and as a recursive function (`Walk`, `CellPos`). Also row capacities and row starts, and the lemmas that characterise the projection.
- `Pixels` (`pixels.dfy`): the constants, the pixel position, flip, rotation and canvas size.
- `Compositor` (`compositor.dfy`): the cell and map data, the asset tables, the per-layer draws, the passes, the render and its properties.

Half-pixel values are exact multiples of 0.5 and are modelled as `real`, so no floating point is involved.

Notes on what the code does:

- With width 15, row 1 holds 14 cells. So id 28 is the last cell of row 1, `(13, 1)`, and id 29 starts row 2 at `(0, 2)` (`Grid.DefaultWidthExamples`).
- The projection uses each cell's declared `cell.id` (main.js:77, 108, 139), not its position in the cell list.
- The ground pass applies the flip adjustment before it rotates the image. The object-1 pass rotates first. Rotation keeps the width, so both orders give the same position (`Pixels.FlipRotateOrderIrrelevant`).
- Each row `r` receives exactly its capacity of ids only on maps at least two cells wide (`Grid.RowMembers`). On a map one cell wide every positive id lands on an odd row, which holds no cells (`Grid.SingleColumnMap`).

## Model

| member | source | states |
|---|---|---|
| `Grid.Walk` | main.js:29-38 | The loop from row `y` on: the row never goes back, the column is never negative, the cells of the rows passed plus the final column add up to the id consumed, and with width at least 2 the column is inside its row |
| `Grid.CellPos` | main.js:25-40 | A non-positive id lands on `(0, 0)` without entering the loop. A non-negative id equals the row start of its row plus its column, with a column that is not negative. With width at least 2 the column is below the row's capacity |
| `Grid.GetCellPos` | main.js:25-40 | The `while` loop computes exactly `CellPos`, for every width of at least 1 (the loop terminates) |
| `Grid.RowStartClosedForm` | main.js:30-33 | The rows above row `y` hold `y * w - y / 2` cells: full rows, less one cell per odd row |
| `Grid.RowStartAfterEarlierRows` | main.js:30-33 | With width at least 2, every later row starts after the last cell of an earlier row |
| `Grid.CellPosCharacterization` | main.js:29-38 | Both directions, width at least 2: `CellPos(id)` is `p` exactly when `p`'s column is within its row's capacity and the row start plus the column gives back `id` |
| `Grid.RowMembers` | main.js:29-38 | Both directions, width at least 2: an id lands on row `r` exactly when it lies in the `RowCapacity(r)` ids from `RowStart(r)` on |
| `Grid.WalkMonotone` | main.js:29-38 | From any row, a larger remaining id never stops on an earlier row |
| `Grid.CellRowMonotone` | main.js:29-38 | The row of `getCellPos` never decreases as the id grows, for every width of at least 1 |
| `Grid.SingleColumnMap` | main.js:30-33 | On a map one cell wide, id `k >= 1` lands on column 0 of row `2k - 1`, a row whose capacity is 0 |
| `Grid.DefaultWidthExamples` | main.js:29-38 | With width 15: 0, 14, 15, 28, 29 and 30 land on (0,0), (14,0), (0,1), (13,1), (0,2) and (1,2) |
| `Pixels.PixelX` | main.js:79-82 | The horizontal position, doubled, is 53 times the half-cell column `2x + y % 2`, so odd rows sit half a cell to the right |
| `Pixels.PixelY` | main.js:78 | The vertical position, doubled, is `27 * y`: each row is half a cell height below the last |
| `Pixels.AnchorInjective` | main.js:78-82 | Distinct grid positions have distinct pixel positions |
| `Pixels.OddRowBetweenNeighbours` | main.js:78-82 | A cell on an odd row sits midway between the two cells above it, half a cell height lower |
| `Pixels.CellAnchorsDistinct` | main.js:77-82 | For width at least 2, two distinct non-negative cell ids never share a base pixel position |
| `Pixels.FlipX` | main.js:92-95 | A flipped draw at `-x - width` under the mirror transform covers the same screen interval as an unflipped draw at `x`, and flipping back gives `x` |
| `Pixels.RotateImage` | main.js:42-49 | A rotated image keeps its width and height, and its turn is a quarter-turn count modulo a full turn |
| `Pixels.RotateFullTurn` | main.js:42-49 | Four quarter turns give back the same image |
| `Pixels.RotateCompose` | main.js:42-49 | Rotating by `a` then by `b` equals rotating by `a + b` |
| `Pixels.FlipRotateOrderIrrelevant` | main.js:119-129 | The flip adjustment is the same whether it is made before or after the rotation |
| `Pixels.CanvasSize` | main.js:60-63 | The canvas is as wide as the anchor of the last cell of the first row, and as high as the anchor of row `2 * (height - 1)` |
| `Pixels.TwoByTwoCanvas` | main.js:60-63 | A 2 by 2 map gets a 53 by 27 canvas |
| `Compositor.Canvas.constructor` | main.js:65 | A new canvas has the given size and has received no draw |
| `Compositor.Canvas.DrawImage` | main.js:99 | A draw call appends exactly one command and changes nothing else |
| `Compositor.BasePosition` | main.js:83-90 | The draw position is the cell's pixel position plus the sprite's origin with no scaling: less the origin, it lies on the cell's half-cell column and half-row |
| `Compositor.BackgroundDraws` | main.js:68-71 | No background draw when the background number is 0 or less. Otherwise the background must be loadable from the ground sheet, else the render aborts. It is drawn once at (0, 0), stretched to the canvas size, unflipped and unrotated |
| `Compositor.GroundDraw` | main.js:75-101 | A ground draw succeeds exactly when the image and the origin entry exist. A missing image is reported before a missing origin. A draw lands at the cell's pixel position plus origin, covers the same screen interval flipped or not, keeps the image size and carries the rotation's quarter turns |
| `Compositor.Object1Draw` | main.js:106-132 | The same for object 1, from the object tables, with the rotation made before the flip adjustment |
| `Compositor.Object2Draw` | main.js:137-160 | The same for object 2, which is never rotated |
| `Compositor.Pass` | main.js:73-102 | A pass succeeds exactly when every cell with a positive layer number has its image and origin. It then yields one draw per such cell, each on the pass's layer with a positive asset id. Object-2 draws have no rotation |
| `Compositor.PassAppend` | main.js:73-74 | A pass over two runs of cells draws the first run and then the second: draws follow ascending cell order, and the first failure wins |
| `Compositor.PassSingleCell` | main.js:74-75 | A single cell yields nothing when its layer number is 0 or less, otherwise its draw or its failure |
| `Compositor.PassStopsAt` | main.js:73-86 | When cell `i` is the first that cannot be drawn, the whole pass fails with that cell's failure |
| `Compositor.Render` | main.js:55-161 | The render reports no data exactly when the cell list is empty. It succeeds exactly when every referenced background, image and origin exists, on a canvas of `(width - 1) * 53` by `(height - 1) * 27` |
| `Compositor.RenderLayerOrder` | main.js:68-161 | The rendered draws are ordered background, ground, object 1, object 2 |
| `Compositor.RenderDraws` | main.js:68-161 | The draw count is the background plus one per cell and layer with a positive number. The background, when present, is first and stretched over the whole canvas. It appears nowhere else. No object-2 draw is rotated |
| `Compositor.SingleGroundCell` | main.js:60-101 | A 2 by 2 map with one ground sprite at cell 0 renders to 53 by 27 with that one sprite drawn at its origin |
| `Compositor.PassExtend` | main.js:73-75 | The pass over the first `i + 1` cells is the pass over the first `i` plus cell `i`'s draw, if its layer number is positive |
| `Compositor.DrawGroundCell` | main.js:76-100 | The body of the ground loop draws exactly the cell's ground draw, or aborts with its failure and draws nothing |
| `Compositor.DrawObject1Cell` | main.js:107-131 | The body of the object-1 loop draws exactly the cell's object-1 draw, or aborts with its failure and draws nothing |
| `Compositor.DrawObject2Cell` | main.js:138-159 | The body of the object-2 loop draws exactly the cell's object-2 draw, or aborts with its failure and draws nothing |
| `Compositor.GroundPass` | main.js:73-102 | The ground loop appends exactly the pass's draws to the canvas, or aborts with the pass's failure, leaving on the canvas the draws of the cells before the first failing one |
| `Compositor.Object1Pass` | main.js:104-133 | The object-1 loop appends exactly the pass's draws, or aborts with the pass's failure after the draws of the cells before the failing one |
| `Compositor.Object2Pass` | main.js:135-161 | The object-2 loop appends exactly the pass's draws, or aborts with the pass's failure after the draws of the cells before the failing one |
| `Compositor.GenerateMap` | main.js:51-165 | `generateMap` returns exactly `Render`: no data on an empty list, otherwise the frozen canvas or the first failure |

## Left out

- Fetching the map data, the sprite metadata and the images over HTTP (main.js:20-23, 52, 69, 76, 107, 138) is network I/O. The map is an input, and the four asset tables are immutable maps. A key missing from a table stands for a fetch or a metadata lookup that fails.
- The pixels themselves are not modelled: `loadImage`, the canvas library's drawing, and `rotateImage`'s transform with angles in floating-point radians (main.js:42-49). An image is its size and a quarter-turn count, and the canvas is the list of draw calls it received. So "the topmost layer wins at a pixel" is stated only as the order of the draws.
- The `save` / `scale(-1, 1)` / `restore` transform stack becomes a per-draw flip flag.
- PNG encoding, creating the output directory and writing the file (main.js:163-165) are filesystem I/O. A successful render returns the finished `Raster`. A failed one returns a `Failure` and writes nothing.
- Command-line parsing (main.js:172-180), timing and logging (main.js:59, 166) are left out. So is the promise `catch` that prints errors (main.js:167-169), which becomes the `Failure` value.
- The module-level mutable metadata globals (main.js:18) become explicit parameters.
- `Grid.GetCellPos` requires a width of at least 1. For a smaller width and a positive id, the source loop never terminates.
- A missing `cellsData` (a `TypeError` in the source) is not modelled. Cells are always a sequence. The source's `!length > 0` test is true exactly when the list is empty, as modelled.
- Map fields and origins are modelled as integers. Non-integer or absent JSON values, which make NaN positions in the source, are not modelled. JavaScript numbers are exact for these magnitudes, so unbounded integers and exact reals match them.
