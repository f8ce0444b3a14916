/**
 * The position maths of the typing view's drawSymbol: symbol i of `num`
 * visible symbols sits in grid cell (i mod COLS, i div COLS); full rows are
 * spread evenly across the canvas, the last (possibly partial) row is
 * centred, and the block of occupied rows is centred vertically. Positions
 * are normalised device coordinates, computed here exactly over the reals.
 */
module GridLayout {

  const COLS: nat := 13
  const ROWS: nat := 5
  const CAPACITY: nat := COLS * ROWS

  /** Math.ceil(num / COLS): the number of rows that `num` symbols occupy. */
  function NumRows(num: nat): (r: nat)
    ensures r * COLS >= num
    ensures num > 0 ==> r >= 1 && (r - 1) * COLS < num
    ensures num == 0 ==> r == 0
  {
    (num + COLS - 1) / COLS
  }

  /** `last_row_count`: how many symbols sit on the last occupied row. */
  function LastRowCount(num: nat): (n: int)
    ensures num > 0 ==> 1 <= n <= COLS
    ensures num > 0 ==> (NumRows(num) - 1) * COLS + n == num
  {
    num - (NumRows(num) - 1) * COLS
  }

  /** Horizontal centre of the cell in column `idx`, row `idy`. */
  function X(idx: nat, idy: nat, num: nat): (x: real)
    ensures idy < NumRows(num) && idx < RowCount(idy, num) ==> -1.0 < x < 1.0
  {
    if idy < NumRows(num) - 1 then
      ((idx as real) + 0.5) / (COLS as real) * 2.0 - 1.0
    else
      var lastRowCount := LastRowCount(num);
      ((idx as real) + 0.5 + ((COLS as int - lastRowCount) as real) / 2.0) / (COLS as real) * 2.0 - 1.0
  }

  /** Vertical centre of row `idy` (device y grows upwards, rows go down). */
  function Y(idy: nat, num: nat): (y: real)
    ensures idy < NumRows(num) <= ROWS ==> -1.0 < y < 1.0
  {
    ((idy as real) + 0.5 + ((ROWS as int - NumRows(num)) as real) / 2.0) / (ROWS as real) * -2.0 + 1.0
  }

  /** How many symbols share row `idy`: a full row, or the last row's count. */
  function RowCount(idy: nat, num: nat): int
  {
    if idy < NumRows(num) - 1 then COLS else LastRowCount(num)
  }

  /** X is the centre of slot idx in a row of RowCount symbols centred on 0. */
  lemma XCentred(idx: nat, idy: nat, num: nat)
    ensures X(idx, idy, num) == ((2 * idx + 1 - RowCount(idy, num)) as real) / (COLS as real)
  {
  }

  /** Y is the centre of row idy in a block of NumRows rows centred on 0. */
  lemma YCentred(idy: nat, num: nat)
    ensures Y(idy, num) == ((NumRows(num) - 1 - 2 * idy) as real) / (ROWS as real)
  {
  }

  /** A full row is mirror-symmetric about x = 0. */
  lemma FullRowMirror(idx: nat, idy: nat, num: nat)
    requires idx < COLS && idy < NumRows(num) - 1
    ensures X(idx, idy, num) == -X(COLS - 1 - idx, idy, num)
  {
  }

  /** The last row, however short, is mirror-symmetric about x = 0. */
  lemma LastRowMirror(idx: nat, num: nat)
    requires 0 < num && idx < LastRowCount(num)
    ensures X(idx, NumRows(num) - 1, num) == -X(LastRowCount(num) - 1 - idx, NumRows(num) - 1, num)
  {
  }

  /** The block of occupied rows is mirror-symmetric about y = 0. */
  lemma VerticalMirror(idy: nat, num: nat)
    requires idy < NumRows(num)
    ensures Y(idy, num) == -Y(NumRows(num) - 1 - idy, num)
  {
  }

  /** The cell of symbol i lies on an occupied row, and within that row's count. */
  lemma CellOccupied(i: nat, num: nat)
    requires i < num
    ensures i / COLS < NumRows(num)
    ensures i % COLS < RowCount(i / COLS, num)
  {
  }

  /** Every one of at most CAPACITY symbols is drawn strictly inside the canvas. */
  lemma CellInsideCanvas(i: nat, num: nat)
    requires i < num <= CAPACITY
    ensures -1.0 < X(i % COLS, i / COLS, num) < 1.0
    ensures -1.0 < Y(i / COLS, num) < 1.0
  {
  }

  /** Two different symbols are never drawn at the same place. */
  lemma CellsDistinct(i: nat, j: nat, num: nat)
    requires i < j < num
    ensures X(i % COLS, i / COLS, num) != X(j % COLS, j / COLS, num) || Y(i / COLS, num) != Y(j / COLS, num)
  {
  }

  /** Up to COLS symbols fill one centred row at y = 0. */
  lemma SingleRow(i: nat, num: nat)
    requires i < num <= COLS
    ensures i / COLS == 0 && i % COLS == i
    ensures X(i, 0, num) == ((2 * i + 1 - num) as real) / (COLS as real)
    ensures Y(0, num) == 0.0
  {
  }

  /** Five symbols sit at x = -4/13, -2/13, 0, 2/13, 4/13 on the middle row. */
  lemma FiveSymbols()
    ensures X(0, 0, 5) == -4.0 / 13.0 && X(1, 0, 5) == -2.0 / 13.0 && X(2, 0, 5) == 0.0
    ensures X(3, 0, 5) == 2.0 / 13.0 && X(4, 0, 5) == 4.0 / 13.0
    ensures Y(0, 5) == 0.0
  {
  }
}
