/** The areas of spells: a matrix around a centre, turned for each direction the caster can look. */
module CombatArea {
  import opened Common

  datatype Direction = NORTH | EAST | SOUTH | WEST

  datatype MatrixOperation = ROTATE90 | ROTATE180 | ROTATE270

  // The offset (x, y) after the turn; y grows to the south.
  function Turn(op: MatrixOperation, x: int, y: int): (int, int) {
    match op
    case ROTATE90 => (-y, x)
    case ROTATE180 => (-x, -y)
    case ROTATE270 => (y, -x)
  }

  function Back(op: MatrixOperation): MatrixOperation {
    match op
    case ROTATE90 => ROTATE270
    case ROTATE180 => ROTATE180
    case ROTATE270 => ROTATE90
  }

  // cos and sin of the angle
  function CosSin(op: MatrixOperation): (int, int) {
    match op
    case ROTATE90 => (0, 1)
    case ROTATE180 => (-1, 0)
    case ROTATE270 => (0, -1)
  }

  lemma TurnsBack(op: MatrixOperation, x: int, y: int)
    ensures var (u, v) := Turn(op, x, y); Turn(Back(op), u, v) == (x, y)
  {}

  function Max(a: nat, b: nat): nat {
    if a > b then a else b
  }

  class MatrixArea {
    var centerX: int
    var centerY: int
    const rows: nat
    const cols: nat
    const data: array2<bool>

    ghost predicate Valid()
      reads this
    {
      data.Length0 == rows && data.Length1 == cols
    }

    // The centre is one of the cells, if there are any.
    predicate Centred()
      reads this
    {
      rows > 0 && cols > 0 ==> 0 <= centerX < cols && 0 <= centerY < rows
    }

    constructor (rows: nat, cols: nat)
      ensures Valid() && fresh(data) && this.rows == rows && this.cols == cols && centerX == 0 && centerY == 0
      ensures forall y, x :: 0 <= y < rows && 0 <= x < cols ==> !data[y, x]
    {
      this.rows, this.cols, centerX, centerY := rows, cols, 0, 0;
      data := new bool[rows, cols]((_, _) => false);
    }

    // The area reaches the tile that lies (dx, dy) from its centre.
    ghost predicate Covers(dx: int, dy: int)
      reads this, data
      requires Valid()
    {
      0 <= centerY + dy < rows && 0 <= centerX + dx < cols && data[centerY + dy, centerX + dx]
    }
  }

  // The cell at (dx, dy) from the output's centre, when the input's cells before column `x`, row `y` have been copied
  ghost predicate Written(input: MatrixArea, op: MatrixOperation, x: nat, y: nat, dx: int, dy: int)
    reads input, input.data
    requires input.Valid()
  {
    var (ix, iy) := Turn(Back(op), dx, dy);
    input.Covers(ix, iy) && (input.centerX + ix < x || (input.centerX + ix == x && input.centerY + iy < y))
  }

  // One cell more
  lemma WrittenNext(input: MatrixArea, op: MatrixOperation, x: nat, y: nat, dx: int, dy: int)
    requires input.Valid() && x < input.cols && y < input.rows
    ensures Written(input, op, x, y + 1, dx, dy) ==
      if (dx, dy) == Turn(op, x - input.centerX, y - input.centerY) then input.data[y, x]
      else Written(input, op, x, y, dx, dy)
  {
    TurnsBack(op, x - input.centerX, y - input.centerY);
    TurnsBack(Back(op), dx, dy);
  }

  // One column more
  lemma WrittenColumn(input: MatrixArea, op: MatrixOperation, x: nat, dx: int, dy: int)
    requires input.Valid()
    ensures Written(input, op, x, input.rows, dx, dy) == Written(input, op, x + 1, 0, dx, dy)
  {}

  // A turn as the source computes it
  method Rotate(op: MatrixOperation, newX: int, newY: int) returns (rotatedX: int, rotatedY: int)
    ensures (rotatedX, rotatedY) == Turn(op, newX, newY)
  {
    var (cos, sin) := CosSin(op);
    var a, b, c, d := cos, -sin, sin, cos;
    rotatedX := newX * a + newY * b;
    rotatedY := newX * c + newY * d;
  }

  // What the output holds when the input's cells before column `x`, row `y` have been copied
  ghost predicate Copied(input: MatrixArea, output: MatrixArea, op: MatrixOperation, x: nat, y: nat, rx: int, ry: int)
    reads input, input.data, output, output.data
    requires input.Valid() && output.Valid()
  {
    forall oy, ox :: 0 <= oy < output.rows && 0 <= ox < output.cols ==>
      output.data[oy, ox] == Written(input, op, x, y, ox - rx, oy - ry)
  }

  // AreaCombat::copyArea for rotations, into an empty matrix twice as large as the longer side
  method CopyArea(input: MatrixArea, output: MatrixArea, op: MatrixOperation)
    requires input.Valid() && input.Centred() && output.Valid() && input != output && input.data != output.data
    requires output.rows == output.cols == 2 * Max(input.cols, input.rows)
    requires forall y, x :: 0 <= y < output.rows && 0 <= x < output.cols ==> !output.data[y, x]
    modifies output, output.data
    ensures output.Valid() && output.Centred()
    ensures forall dx, dy :: output.Covers(dx, dy) <==> var (x, y) := Turn(Back(op), dx, dy); input.Covers(x, y)
  {
    hide MatrixArea.Covers, Turn, Back;
    var rotateCenterX := output.cols / 2 - 1;
    var rotateCenterY := output.rows / 2 - 1;
    NothingCopied(input, output, op, rotateCenterX, rotateCenterY);
    var x := 0;
    while x < input.cols
      invariant 0 <= x <= input.cols && Copied(input, output, op, x, 0, rotateCenterX, rotateCenterY)
    {
      CopyColumn(input, output, op, x, rotateCenterX, rotateCenterY);
      x := x + 1;
    }
    output.centerX, output.centerY := rotateCenterX, rotateCenterY;
    forall dx, dy ensures output.Covers(dx, dy) <==> var (x, y) := Turn(Back(op), dx, dy); input.Covers(x, y) {
      AllCopied(input, output, op, dx, dy);
    }
  }

  lemma NothingCopied(input: MatrixArea, output: MatrixArea, op: MatrixOperation, rx: int, ry: int)
    requires input.Valid() && output.Valid()
    requires forall y, x :: 0 <= y < output.rows && 0 <= x < output.cols ==> !output.data[y, x]
    ensures Copied(input, output, op, 0, 0, rx, ry)
  {}

  // When every cell has been copied, the output reaches what the input reaches, turned.
  lemma AllCopied(input: MatrixArea, output: MatrixArea, op: MatrixOperation, dx: int, dy: int)
    requires input.Valid() && input.Centred() && output.Valid()
    requires output.rows == output.cols == 2 * Max(input.cols, input.rows)
    requires output.centerX == output.centerY == output.cols / 2 - 1
    requires Copied(input, output, op, input.cols, 0, output.centerX, output.centerY)
    ensures output.Covers(dx, dy) <==> var (x, y) := Turn(Back(op), dx, dy); input.Covers(x, y)
  {
    if 0 <= output.centerY + dy < output.rows && 0 <= output.centerX + dx < output.cols {
      assert output.data[output.centerY + dy, output.centerX + dx] == Written(input, op, input.cols, 0, dx, dy);
    }
  }

  // The inner loop of copyArea
  method CopyColumn(input: MatrixArea, output: MatrixArea, op: MatrixOperation, x: nat, rx: int, ry: int)
    requires input.Valid() && input.Centred() && output.Valid() && input != output && input.data != output.data
    requires output.rows == output.cols == 2 * Max(input.cols, input.rows)
    requires x < input.cols && rx == ry == output.cols / 2 - 1 && Copied(input, output, op, x, 0, rx, ry)
    modifies output.data
    ensures Copied(input, output, op, x + 1, 0, rx, ry)
  {
    hide Written;
    var y := 0;
    while y < input.rows
      invariant 0 <= y <= input.rows && Copied(input, output, op, x, y, rx, ry)
    {
      var newX := x - input.centerX;
      var newY := y - input.centerY;
      var rotatedX, rotatedY := Rotate(op, newX, newY);
      label before:
      output.data[rotatedY + ry, rotatedX + rx] := input.data[y, x];
      forall oy, ox | 0 <= oy < output.rows && 0 <= ox < output.cols
        ensures output.data[oy, ox] == Written(input, op, x, y + 1, ox - rx, oy - ry)
      {
        WrittenNext(input, op, x, y, ox - rx, oy - ry);
        assert old@before(output.data[oy, ox]) == old@before(Written(input, op, x, y, ox - rx, oy - ry));
      }
      y := y + 1;
    }
    forall dx, dy ensures Written(input, op, x, input.rows, dx, dy) == Written(input, op, x + 1, 0, dx, dy) {
      WrittenColumn(input, op, x, dx, dy);
    }
  }

  // The place of a cell in the list
  function Cell(cols: nat, y: int, x: int): int {
    y * cols + x
  }

  lemma CellNext(cols: nat, y: nat, x: nat)
    requires x < cols
    ensures Cell(cols, y, x) + 1 == if x + 1 == cols then Cell(cols, y + 1, 0) else Cell(cols, y, x + 1)
  {}

  lemma CellInside(rows: nat, cols: nat, y: nat, x: nat)
    requires x < cols
    ensures Cell(cols, y, x) < rows * cols <==> y < rows
  {
    if y < rows {
      assert (y + 1) * cols <= rows * cols;
    } else {
      assert rows * cols <= y * cols;
    }
  }

  function Columns(list: seq<nat>, rows: nat): nat {
    if rows == 0 then 0 else |list| / rows
  }

  // No mark lies behind the last cell of the matrix.
  predicate MarksFit(list: seq<nat>, rows: nat) {
    forall k :: rows * Columns(list, rows) <= k < |list| ==> list[k] !in {1, 2, 3}
  }

  // AreaCombat::createArea: 1 marks a tile, 2 the centre, 3 both.
  method CreateArea(list: seq<nat>, rows: nat) returns (area: MatrixArea)
    requires MarksFit(list, rows)
    ensures fresh(area) && area.Valid() && fresh(area.data) && area.Centred()
    ensures area.rows == rows && area.cols == Columns(list, rows)
    ensures forall y, x :: 0 <= y < rows && 0 <= x < area.cols ==> area.data[y, x] == Marks(list, Cell(area.cols, y, x))
    ensures CentreUpTo(list, Cell(area.cols, area.centerY, area.centerX), |list|)
    ensures forall y, x :: 0 <= y < rows && 0 <= x < area.cols ==>
      area.data[y, x] == exists k :: 0 <= k < |list| && k == y * area.cols + x && (list[k] == 1 || list[k] == 3)
    ensures var centre := area.centerY * area.cols + area.centerX;
      && (forall k :: centre < k < |list| ==> list[k] != 2 && list[k] != 3)
      && (centre == 0 || (0 < centre < |list| && (list[centre] == 2 || list[centre] == 3)))
  {
    hide Cell, Marks, CentreUpTo, Columns;
    var cols := Columns(list, rows);
    area := new MatrixArea(rows, cols);
    var x, y := 0, 0;
    var k := 0;
    FirstCell(list, cols);
    while k < |list|
      invariant 0 <= k <= |list| && 0 <= x && 0 <= y && k == if cols == 0 then x else Cell(cols, y, x)
      invariant if cols == 0 then y == 0 else x < cols
      invariant area.Valid() && area.rows == rows && area.cols == cols && area.Centred()
      invariant CentreUpTo(list, Cell(cols, area.centerY, area.centerX), k)
      invariant forall v, u :: 0 <= v < rows && 0 <= u < cols ==>
        area.data[v, u] == ((v < y || (v == y && u < x)) && Marks(list, Cell(cols, v, u)))
    {
      NextCell(list, Cell(cols, area.centerY, area.centerX), k);
      if cols > 0 {
        CellInside(rows, cols, y, x);
        CellNext(cols, y, x);
      }
      var value := list[k];
      if value == 1 || value == 3 {
        area.data[y, x] := true;
      }
      if value == 2 || value == 3 {
        area.centerY, area.centerX := y, x;
      }
      k := k + 1;
      x := x + 1;
      if cols == x {
        x := 0;
        y := y + 1;
      }
    }
    if cols > 0 {
      ColumnsFit(list, rows);
      CellInside(rows, cols, y, x);
    }
    MarksAre(list, cols);
    CentreIs(list, cols, area.centerY, area.centerX);
  }

  lemma MarksAre(list: seq<nat>, cols: nat)
    ensures forall y, x ::
      Marks(list, Cell(cols, y, x)) == exists k :: 0 <= k < |list| && k == y * cols + x && (list[k] == 1 || list[k] == 3)
  {}

  lemma CentreIs(list: seq<nat>, cols: nat, y: int, x: int)
    requires CentreUpTo(list, Cell(cols, y, x), |list|)
    ensures var centre := y * cols + x;
      && (forall k :: centre < k < |list| ==> list[k] != 2 && list[k] != 3)
      && (centre == 0 || (0 < centre < |list| && (list[centre] == 2 || list[centre] == 3)))
  {}

  lemma ColumnsFit(list: seq<nat>, rows: nat)
    ensures rows * Columns(list, rows) <= |list|
  {
    if rows > 0 {
      assert |list| / rows * rows <= |list|;
    }
  }

  lemma FirstCell(list: seq<nat>, cols: nat)
    ensures Cell(cols, 0, 0) == 0 && CentreUpTo(list, 0, 0)
  {}

  lemma NextCell(list: seq<nat>, centre: int, k: nat)
    requires k < |list| && CentreUpTo(list, centre, k)
    ensures Marks(list, k) == (list[k] in {1, 3})
    ensures list[k] in {2, 3} ==> CentreUpTo(list, k, k + 1)
    ensures list[k] !in {2, 3} ==> CentreUpTo(list, centre, k + 1)
  {}

  predicate Marks(list: seq<nat>, i: int) {
    0 <= i < |list| && list[i] in {1, 3}
  }

  // Of the first `k` marks, `i` is the last that marks a centre; without any it is the first cell.
  predicate CentreUpTo(list: seq<nat>, i: int, k: nat)
    requires k <= |list|
  {
    && 0 <= i && ((i < k && list[i] in {2, 3}) || (i == 0 && forall j :: 0 <= j < k ==> list[j] !in {2, 3}))
    && forall j :: i < j < k ==> list[j] !in {2, 3}
  }

  // ---------- all directions ----------

  class AreaCombat {
    var areas: map<Direction, MatrixArea>

    // AreaCombat::setupArea: the matrix is the area to the north, and is turned for the others.
    method SetupArea(list: seq<nat>, rows: nat)
      requires MarksFit(list, rows)
      modifies this
      ensures areas.Keys == {NORTH, EAST, SOUTH, WEST} && forall d <- areas :: areas[d].Valid() && areas[d].Centred()
      ensures var north := areas[NORTH];
        && north.Valid() && north.rows == rows && north.cols == Columns(list, rows)
        && (forall y, x :: 0 <= y < rows && 0 <= x < north.cols ==> north.data[y, x] == Marks(list, Cell(north.cols, y, x)))
        && CentreUpTo(list, Cell(north.cols, north.centerY, north.centerX), |list|)
      ensures forall dx, dy :: areas[EAST].Covers(dx, dy) <==> areas[NORTH].Covers(dy, -dx)
      ensures forall dx, dy :: areas[SOUTH].Covers(dx, dy) <==> areas[NORTH].Covers(-dx, -dy)
      ensures forall dx, dy :: areas[WEST].Covers(dx, dy) <==> areas[NORTH].Covers(-dy, dx)
    {
      hide Cell, Marks, CentreUpTo, Columns, MatrixArea.Covers;
      var area := CreateArea(list, rows);
      var southArea := Turned(area, ROTATE180);
      var eastArea := Turned(area, ROTATE90);
      var westArea := Turned(area, ROTATE270);
      areas := map[NORTH := area, SOUTH := southArea, EAST := eastArea, WEST := westArea];
    }

    method Turned(area: MatrixArea, op: MatrixOperation) returns (turned: MatrixArea)
      requires area.Valid() && area.Centred()
      ensures fresh(turned) && turned.Valid() && fresh(turned.data) && turned.Centred()
      ensures forall dx, dy :: turned.Covers(dx, dy) <==> var (x, y) := Turn(Back(op), dx, dy); area.Covers(x, y)
    {
      hide MatrixArea.Covers, Turn, Back;
      var maxOutput := Max(area.cols, area.rows) * 2;
      turned := new MatrixArea(maxOutput, maxOutput);
      CopyArea(area, turned, op);
    }
  }

  // A coordinate has 16 bits.
  function Wrap(n: int): int {
    n % 0x10000
  }

  // AreaCombat::getList: the tiles around the target that the area reaches and that can be seen from there
  method GetList(area: MatrixArea, targetX: nat, targetY: nat, isSightClear: (int, int) -> bool) returns (list: seq<(int, int)>)
    requires area.Valid()
    ensures forall p :: p in list <==>
      isSightClear(p.0, p.1) && exists dx, dy :: area.Covers(dx, dy) && p == (Wrap(targetX + dx), Wrap(targetY + dy))
    // An area that fits on the map hits nobody twice.
    ensures area.rows <= 0x10000 && area.cols <= 0x10000 ==> NoRepeats(list)
  {
    hide Wrap;
    list := [];
    var tmpX, tmpY := Wrap(targetX - area.centerX), Wrap(targetY - area.centerY);
    var y := 0;
    while y < area.rows
      invariant 0 <= y <= area.rows
      invariant tmpX == Wrap(targetX - area.centerX) && tmpY == Wrap(targetY - area.centerY + y)
      invariant area.rows <= 0x10000 && area.cols <= 0x10000 ==> NoRepeats(list)
      invariant forall p :: p in list <==> Listed(area, targetX, targetY, isSightClear, y, 0, p)
    {
      var x := 0;
      while x < area.cols
        invariant 0 <= x <= area.cols
        invariant tmpX == Wrap(targetX - area.centerX + x) && tmpY == Wrap(targetY - area.centerY + y)
        invariant area.rows <= 0x10000 && area.cols <= 0x10000 ==> NoRepeats(list)
        invariant forall p :: p in list <==> Listed(area, targetX, targetY, isSightClear, y, x, p)
      {
        if area.data[y, x] {
          assert area.Covers(x - area.centerX, y - area.centerY);
          if area.rows <= 0x10000 && area.cols <= 0x10000 {
            NotListed(area, targetX, targetY, isSightClear, y, x);
          }
          if isSightClear(tmpX, tmpY) {
            list := list + [(tmpX, tmpY)];
          }
        }
        WrapAdd(targetX - area.centerX + x, 1);
        tmpX := Wrap(tmpX + 1);
        x := x + 1;
      }
      WrapAdd(targetX - area.centerX + x, 0 - area.cols);
      WrapAdd(targetY - area.centerY + y, 1);
      tmpX := Wrap(tmpX - area.cols);
      tmpY := Wrap(tmpY + 1);
      y := y + 1;
    }
  }

  // A tile that the cells before row `y`, column `x` reach
  ghost predicate Listed(area: MatrixArea, targetX: nat, targetY: nat, sight: (int, int) -> bool, y: nat, x: nat, p: (int, int))
    reads area, area.data
    requires area.Valid()
  {
    && sight(p.0, p.1)
    && exists dx, dy ::
      && area.Covers(dx, dy) && p == (Wrap(targetX + dx), Wrap(targetY + dy))
      && (area.centerY + dy < y || (area.centerY + dy == y && area.centerX + dx < x))
  }

  lemma WrapAdd(n: int, k: int)
    ensures Wrap(Wrap(n) + k) == Wrap(n + k)
  {}

  lemma WrapApart(m: int, n: int)
    requires Wrap(m) == Wrap(n) && -0x10000 < m - n < 0x10000
    ensures m == n
  {}

  // The next cell's tile is none of those before.
  lemma NotListed(area: MatrixArea, targetX: nat, targetY: nat, sight: (int, int) -> bool, y: nat, x: nat)
    requires area.Valid() && y < area.rows <= 0x10000 && x < area.cols <= 0x10000
    ensures !Listed(area, targetX, targetY, sight, y, x, (Wrap(targetX + x - area.centerX), Wrap(targetY + y - area.centerY)))
  {
    hide Wrap;
    var p := (Wrap(targetX + x - area.centerX), Wrap(targetY + y - area.centerY));
    if Listed(area, targetX, targetY, sight, y, x, p) {
      var dx, dy :|
        && area.Covers(dx, dy) && p == (Wrap(targetX + dx), Wrap(targetY + dy))
        && (area.centerY + dy < y || (area.centerY + dy == y && area.centerX + dx < x));
      WrapApart(targetX + x - area.centerX, targetX + dx);
      WrapApart(targetY + y - area.centerY, targetY + dy);
      assert false;
    }
  }
}
