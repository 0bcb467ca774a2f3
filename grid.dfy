/** The grid projector of main.js: getCellPos turns a cell id into the column
    and row of that cell on the map's brick (diamond) grid. Even rows hold as
    many cells as the map is wide; odd rows are shifted by half a cell and hold
    one fewer. */
module Grid {

  /** A cell's place on the grid: column `x` within row `y`. */
  datatype GridPos = GridPos(x: int, y: nat)

  /** The number of cells on row `y` of a map `w` cells wide. */
  function RowCapacity(y: nat, w: int): int
  {
    if y % 2 == 0 then w else w - 1
  }

  /** The id of the first cell of row `y`: how many cells the rows above it hold. */
  function RowStart(y: nat, w: int): int
  {
    if y == 0 then 0 else RowStart(y - 1, w) + RowCapacity(y - 1, w)
  }

  /** The rest of getCellPos's loop once it has reached row `y` with `id` cells
      still to skip: a whole row is skipped while `id` covers it, and the
      remainder becomes the column on the row where it stops. */
  function Walk(id: int, w: int, y: nat): (p: GridPos)
    requires w >= 1
    ensures p.y >= y && p.x >= 0
    ensures id >= 0 ==> RowStart(y, w) + id == RowStart(p.y, w) + p.x
    ensures w >= 2 ==> p.x < RowCapacity(p.y, w)
    decreases if id > 0 then 2 * id + y % 2 else 0
  {
    if id <= 0 then GridPos(0, y)
    else if id >= RowCapacity(y, w) then Walk(id - RowCapacity(y, w), w, y + 1)
    else GridPos(id, y)
  }

  /** getCellPos(cellId, nbCellPerRow) as a function. A cell id that is not
      positive never enters the loop and lands on the origin; any other id is
      split into the cells of the rows above its row plus its column. */
  function CellPos(cellId: int, w: int): (p: GridPos)
    requires w >= 1
    ensures cellId <= 0 ==> p == GridPos(0, 0)
    ensures cellId >= 0 ==> p.x >= 0 && cellId == RowStart(p.y, w) + p.x
    ensures w >= 2 ==> 0 <= p.x < RowCapacity(p.y, w)
  {
    Walk(cellId, w, 0)
  }

  /** getCellPos as main.js writes it: a loop that moves down one row while
      the id left covers the whole current row, and otherwise takes the id
      left as the column. A width below 1 makes the source loop forever. */
  method GetCellPos(cellId: int, nbCellPerRow: int) returns (pos: GridPos)
    requires nbCellPerRow >= 1
    ensures pos == CellPos(cellId, nbCellPerRow)
  {
    var x: int, y: nat := 0, 0;
    var id := cellId;
    while id > 0
      invariant id > 0 ==> x == 0
      invariant (if id > 0 then Walk(id, nbCellPerRow, y) else GridPos(x, y))
                == CellPos(cellId, nbCellPerRow)
      decreases if id > 0 then 2 * id + y % 2 else 0
    {
      var nbCellOnThisRow := if y % 2 == 0 then nbCellPerRow else nbCellPerRow - 1;
      if id >= nbCellOnThisRow {
        y := y + 1;
        id := id - nbCellOnThisRow;
      } else {
        x := x + id;
        id := 0;
      }
    }
    pos := GridPos(x, y);
  }

  /** The rows above row `y` hold `y * w` cells less one per odd row among them. */
  lemma {:induction false} RowStartClosedForm(y: nat, w: int)
    ensures RowStart(y, w) == y * w - y / 2
  {
    if y > 0 {
      RowStartClosedForm(y - 1, w);
      assert (y - 1) * w + w == y * w;
    }
  }

  /** With at least two cells per row every row holds a cell, so each row
      starts strictly after every cell of the rows above it. */
  lemma {:induction false} RowStartAfterEarlierRows(y1: nat, y2: nat, w: int)
    requires w >= 2 && y1 < y2
    ensures RowStart(y1, w) + RowCapacity(y1, w) <= RowStart(y2, w)
  {
    if y1 + 1 < y2 {
      RowStartAfterEarlierRows(y1, y2 - 1, w);
    }
  }

  /** Both directions of the decomposition: for a map at least two cells wide,
      the position of a non-negative id is the one and only column and row
      whose row start plus column gives back the id. */
  lemma CellPosCharacterization(cellId: int, w: int, p: GridPos)
    requires w >= 2 && cellId >= 0
    ensures CellPos(cellId, w) == p
            <==> 0 <= p.x < RowCapacity(p.y, w) && cellId == RowStart(p.y, w) + p.x
  {
    var q := CellPos(cellId, w);
    if 0 <= p.x < RowCapacity(p.y, w) && cellId == RowStart(p.y, w) + p.x {
      if p.y < q.y {
        RowStartAfterEarlierRows(p.y, q.y, w);
      } else if q.y < p.y {
        RowStartAfterEarlierRows(q.y, p.y, w);
      }
    }
  }

  /** The ids that land on row `r` are exactly the `RowCapacity(r, w)` ids
      starting at `RowStart(r, w)`: every row is filled before the next begins. */
  lemma RowMembers(cellId: int, w: int, r: nat)
    requires w >= 2 && cellId >= 0
    ensures CellPos(cellId, w).y == r
            <==> RowStart(r, w) <= cellId < RowStart(r, w) + RowCapacity(r, w)
  {
    var q := CellPos(cellId, w);
    if RowStart(r, w) <= cellId < RowStart(r, w) + RowCapacity(r, w) {
      CellPosCharacterization(cellId, w, GridPos(cellId - RowStart(r, w), r));
    }
  }

  lemma {:induction false} WalkMonotone(id1: int, id2: int, w: int, y: nat)
    requires w >= 1 && id1 <= id2
    ensures Walk(id1, w, y).y <= Walk(id2, w, y).y
    decreases if id2 > 0 then 2 * id2 + y % 2 else 0
  {
    if id1 > 0 && id1 >= RowCapacity(y, w) {
      WalkMonotone(id1 - RowCapacity(y, w), id2 - RowCapacity(y, w), w, y + 1);
    }
  }

  /** A larger cell id never lands on an earlier row. */
  lemma CellRowMonotone(id1: int, id2: int, w: int)
    requires w >= 1 && id1 <= id2
    ensures CellPos(id1, w).y <= CellPos(id2, w).y
  {
    WalkMonotone(id1, id2, w, 0);
  }

  lemma {:induction false} WalkSingleColumn(id: int, y: nat)
    requires id >= 1 && y % 2 == 0
    ensures Walk(id, 1, y) == GridPos(0, y + 2 * id - 1)
    decreases id
  {
    if id > 1 {
      WalkSingleColumn(id - 1, y + 2);
    }
  }

  /** On a map one cell wide the odd rows hold no cell, yet the loop stops on
      one: every positive id ends at column 0 of odd row `2 * id - 1`. */
  lemma SingleColumnMap(cellId: int)
    requires cellId >= 1
    ensures CellPos(cellId, 1) == GridPos(0, 2 * cellId - 1)
    ensures RowCapacity(CellPos(cellId, 1).y, 1) == 0
  {
    WalkSingleColumn(cellId, 0);
  }

  /** Worked values of the loop for the default map width of 15: row 1
      holds only 14 cells, so id 29 already starts row 2. */
  lemma DefaultWidthExamples()
    ensures CellPos(0, 15) == GridPos(0, 0)
    ensures CellPos(14, 15) == GridPos(14, 0)
    ensures CellPos(15, 15) == GridPos(0, 1)
    ensures CellPos(28, 15) == GridPos(13, 1)
    ensures CellPos(29, 15) == GridPos(0, 2)
    ensures CellPos(30, 15) == GridPos(1, 2)
  {
  }
}
