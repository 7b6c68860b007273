/** Integer hit-testing: pygame rectangles, the icon grid of `get_icon_rect`,
    the first-match icon search of the event loop, and clamping. */
module Geometry {
  import opened Wrappers

  /** Side length of every menu icon (ICON_SIZE). */
  const IconSize := 70

  /** An integer rectangle given by its left, top, width and height (a pygame Rect). */
  datatype Rect = Rect(x: int, y: int, w: int, h: int)

  /** pygame's `Rect.collidepoint`: the left and top edges are inside, the right and bottom ones are not. */
  function Contains(r: Rect, px: int, py: int): (b: bool)
    ensures b ==> r.w > 0 && r.h > 0
    ensures px == r.x + r.w || py == r.y + r.h ==> !b
    ensures r.w > 0 && r.h > 0 && px == r.x && py == r.y ==> b
  {
    r.x <= px < r.x + r.w && r.y <= py < r.y + r.h
  }

  /** The arguments of `get_icon_rect` besides the index: grid origin, pitch between cells, cells per row. */
  datatype Grid = Grid(startX: int, startY: int, spacing: int, cols: nat)

  /** `get_icon_rect`: icon `index` sits in row `index div cols` and column `index mod cols`. */
  function IconRect(index: nat, g: Grid): (r: Rect)
    requires g.cols > 0
    ensures r.w == IconSize && r.h == IconSize
    ensures index < g.cols ==> r.y == g.startY
    ensures index % g.cols == 0 ==> r.x == g.startX
  {
    var row := index / g.cols;
    var col := index % g.cols;
    Rect(g.startX + col * g.spacing, g.startY + row * g.spacing, IconSize, IconSize)
  }

  /** Reference hit-test by division: the cell under the point, if the point lies on an icon
      (and not in the gap between icons) and that cell holds one of the first `count` icons. */
  function GridCell(g: Grid, count: nat, px: int, py: int): Option<nat>
    requires g.cols > 0 && g.spacing > 0
  {
    var dx, dy := px - g.startX, py - g.startY;
    if dx < 0 || dy < 0 then None
    else
      var col, row := dx / g.spacing, dy / g.spacing;
      MulNonNegative(row, g.cols);
      if col < g.cols && dx % g.spacing < IconSize && dy % g.spacing < IconSize && row * g.cols + col < count
      then Some(row * g.cols + col)
      else None
  }

  /** Euclidean division is determined by any quotient/remainder decomposition. */
  lemma DivModUnique(a: int, d: int, q: int, r: int)
    requires d > 0 && 0 <= r < d && a == q * d + r
    ensures a / d == q && a % d == r
  {
    var q', r' := a / d, a % d;
    assert a == q' * d + r' && 0 <= r' < d;
    if q' < q {
      assert (q - q') * d >= d by { MulAtLeast(q - q', d); }
      assert false;
    } else if q' > q {
      assert (q' - q) * d >= d by { MulAtLeast(q' - q, d); }
      assert false;
    }
  }

  lemma MulNonNegative(a: int, b: int)
    requires a >= 0 && b >= 0
    ensures a * b >= 0
  {
  }

  lemma MulAtLeast(k: int, d: int)
    requires k >= 1 && d > 0
    ensures k * d >= d
  {
  }

  /** One axis of the grid: offset `d` falls on cell `k` of pitch `sp` exactly when its quotient
      is `k` and its remainder lies within the icon. */
  lemma AxisCell(d: int, sp: int, k: nat)
    requires sp >= IconSize
    ensures k * sp <= d < k * sp + IconSize <==> d >= 0 && d / sp == k && d % sp < IconSize
  {
    if k * sp <= d < k * sp + IconSize {
      DivModUnique(d, sp, k, d - k * sp);
    }
    if d >= 0 && d / sp == k && d % sp < IconSize {
      assert d == k * sp + d % sp;
    }
  }

  /** Row-major numbering: cell (`row`, `col`) holds index `row * cols + col` and no other. */
  lemma RowMajor(i: nat, cols: nat, row: int, col: int)
    requires cols > 0 && 0 <= col < cols
    ensures i == row * cols + col <==> i / cols == row && i % cols == col
  {
    if i == row * cols + col {
      DivModUnique(i, cols, row, col);
    }
  }

  /** When icons are no larger than the pitch, a point lies on icon `i` exactly when the
      division-based hit-test names cell `i`: the grid geometry has an inverse. */
  lemma GridCellInvertsIconRect(g: Grid, count: nat, i: nat, px: int, py: int)
    requires g.cols > 0 && g.spacing >= IconSize && i < count
    ensures Contains(IconRect(i, g), px, py) <==> GridCell(g, count, px, py) == Some(i)
  {
    var dx, dy := px - g.startX, py - g.startY;
    AxisCell(dx, g.spacing, i % g.cols);
    AxisCell(dy, g.spacing, i / g.cols);
    if dx >= 0 && dy >= 0 && dx / g.spacing < g.cols {
      RowMajor(i, g.cols, dy / g.spacing, dx / g.spacing);
    }
  }

  /** With icons no larger than the pitch, no point lies on two different icons. */
  lemma IconRectsDisjoint(g: Grid, count: nat, i: nat, j: nat, px: int, py: int)
    requires g.cols > 0 && g.spacing >= IconSize && i < count && j < count
    requires Contains(IconRect(i, g), px, py) && Contains(IconRect(j, g), px, py)
    ensures i == j
  {
    GridCellInvertsIconRect(g, count, i, px, py);
    GridCellInvertsIconRect(g, count, j, px, py);
  }

  /** The first of icons `k`, `k+1`, ..., `count-1` whose rectangle holds the point. */
  function FirstHitFrom(g: Grid, count: nat, k: nat, px: int, py: int): (r: Option<nat>)
    requires g.cols > 0 && k <= count
    decreases count - k
    ensures r.Some? ==> k <= r.value < count && Contains(IconRect(r.value, g), px, py)
    ensures r.Some? ==> forall j: nat :: k <= j < r.value ==> !Contains(IconRect(j, g), px, py)
    ensures r.None? <==> forall j: nat :: k <= j < count ==> !Contains(IconRect(j, g), px, py)
  {
    if k == count then None
    else if Contains(IconRect(k, g), px, py) then Some(k)
    else FirstHitFrom(g, count, k + 1, px, py)
  }

  /** The icon a click or hover resolves to: the lowest index whose rectangle holds the point. */
  function FirstHit(g: Grid, count: nat, px: int, py: int): Option<nat>
    requires g.cols > 0
  {
    FirstHitFrom(g, count, 0, px, py)
  }

  /** With icons no larger than the pitch the first match is the only match, so the
      linear search agrees with the division-based hit-test. */
  lemma FirstHitIsGridCell(g: Grid, count: nat, px: int, py: int)
    requires g.cols > 0 && g.spacing >= IconSize
    ensures FirstHit(g, count, px, py) == GridCell(g, count, px, py)
  {
    var first, cell := FirstHit(g, count, px, py), GridCell(g, count, px, py);
    if first.Some? {
      GridCellInvertsIconRect(g, count, first.value, px, py);
    }
    if cell.Some? {
      GridCellInvertsIconRect(g, count, cell.value, px, py);
    }
  }

  /** The `for i in range(len(...))` search with `break` of the event loop. */
  method FindIcon(g: Grid, count: nat, px: int, py: int) returns (hit: Option<nat>)
    requires g.cols > 0
    ensures hit == FirstHit(g, count, px, py)
  {
    hit := None;
    var i := 0;
    while i < count
      invariant i <= count
      invariant FirstHit(g, count, px, py) == FirstHitFrom(g, count, i, px, py)
      invariant hit == None
    {
      if Contains(IconRect(i, g), px, py) {
        hit := Some(i);
        break;
      }
      i := i + 1;
    }
  }

  /** `max(lo, min(hi, v))`. */
  function Clamp(v: int, lo: int, hi: int): (r: int)
    requires lo <= hi
    ensures lo <= r <= hi
    ensures lo <= v <= hi ==> r == v
    ensures v < lo ==> r == lo
    ensures v > hi ==> r == hi
  {
    if v < lo then lo else if v > hi then hi else v
  }

  /** Clamping never reverses the order of two inputs. */
  lemma ClampMonotone(u: int, v: int, lo: int, hi: int)
    requires lo <= hi && u <= v
    ensures Clamp(u, lo, hi) <= Clamp(v, lo, hi)
  {
  }

  /** `clamp_color`: a colour channel forced into 0..255. */
  function ClampColor(v: int): (r: int)
    ensures 0 <= r <= 255
    ensures 0 <= v <= 255 ==> r == v
    ensures v < 0 ==> r == 0
    ensures v > 255 ==> r == 255
  {
    Clamp(v, 0, 255)
  }

  /** Clamping a channel twice is the same as clamping it once. */
  lemma ClampColorIdempotent(v: int)
    ensures ClampColor(ClampColor(v)) == ClampColor(v)
  {
  }

}
