/** Canvas coordinates and the grid on which new blocks are placed. */
module Layout {

  /** A point on the canvas, in pixels; y grows downwards. */
  datatype Point = Point(x: int, y: int)

  function Add(p: Point, d: Point): Point {
    Point(p.x + d.x, p.y + d.y)
  }

  function Sub(p: Point, q: Point): Point {
    Point(p.x - q.x, p.y - q.y)
  }

  const Origin := Point(0, 0)

  /** Edge length of every block, `self.block_size`. */
  const BlockSize: int := 50

  /** Gap between the canvas edge and the first row and column of slots. */
  const Margin: int := 10

  /** Number of grid columns for a canvas of the given width, `winfo_width() // 50`. */
  function BlocksPerRow(canvasWidth: nat): (n: nat)
    ensures n * BlockSize <= canvasWidth < (n + 1) * BlockSize
  {
    canvasWidth / BlockSize
  }

  /** Top-left corner of the slot of the block created when `n` blocks exist:
      slots fill a row of `perRow` columns left to right, then wrap to the next row. */
  function Slot(n: nat, perRow: nat): (p: Point)
    requires perRow >= 1
    ensures Margin <= p.x < perRow * BlockSize + Margin
    ensures Margin <= p.y
    ensures (p.x - Margin) % BlockSize == 0 && (p.y - Margin) % BlockSize == 0
  {
    Point((n % perRow) * BlockSize + Margin, (n / perRow) * BlockSize + Margin)
  }

  /** The creation count that a grid slot belongs to: row times `perRow` plus column. */
  function SlotNumber(p: Point, perRow: nat): int {
    ((p.y - Margin) / BlockSize) * perRow + (p.x - Margin) / BlockSize
  }

  /** The slot of the n-th block determines n. */
  lemma SlotNumberInverts(n: nat, perRow: nat)
    requires perRow >= 1
    ensures SlotNumber(Slot(n, perRow), perRow) == n
  {
    var p := Slot(n, perRow);
    assert (p.x - Margin) / BlockSize == n % perRow;
    assert (p.y - Margin) / BlockSize == n / perRow;
  }

  /** Different creation counts never share a slot. */
  lemma SlotInjective(n: nat, m: nat, perRow: nat)
    requires perRow >= 1 && n != m
    ensures Slot(n, perRow) != Slot(m, perRow)
  {
    SlotNumberInverts(n, perRow);
    SlotNumberInverts(m, perRow);
  }

  lemma ProductAtLeast(a: int, d: int)
    requires a >= 1 && d >= 1
    ensures a * d >= d
  {
    assert a * d == (a - 1) * d + d;
  }

  /** Euclidean division is determined by its quotient and remainder. */
  lemma DivModUnique(n: int, d: int, q: int, r: int)
    requires d >= 1 && 0 <= r < d && n == q * d + r
    ensures n / d == q && n % d == r
  {
    var q', r' := n / d, n % d;
    if q' > q {
      assert (q' - q) * d == r - r';
      ProductAtLeast(q' - q, d);
    } else if q' < q {
      assert (q - q') * d == r' - r;
      ProductAtLeast(q - q', d);
    }
  }

  /** The next slot is one block to the right, or the first column of the next row. */
  lemma SlotSuccessor(n: nat, perRow: nat)
    requires perRow >= 1
    ensures var p, q := Slot(n, perRow), Slot(n + 1, perRow);
      if (n + 1) % perRow == 0 then q == Point(Margin, p.y + BlockSize)
      else q == Point(p.x + BlockSize, p.y)
  {
    var row, col := n / perRow, n % perRow;
    if col + 1 == perRow {
      DivModUnique(n + 1, perRow, row + 1, 0);
    } else {
      DivModUnique(n + 1, perRow, row, col + 1);
    }
  }

  /** Three blocks on a surface two columns wide. */
  lemma TwoColumnsExample()
    ensures Slot(0, 2) == Point(10, 10)
    ensures Slot(1, 2) == Point(60, 10)
    ensures Slot(2, 2) == Point(10, 60)
  {
  }
}
