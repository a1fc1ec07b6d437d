// The tile grid of src/scripts/controller/map.ts: a fixed 8x8 level of air and
// solid blocks, a bounds-checked lookup on truncated coordinates and the
// scaling of a canvas into cells.

module Maps {
  import opened Optional
  import opened Vectors

  datatype Block = Air | Solid

  /** The fill and stroke styles a block is drawn with. */
  datatype Palette = Palette(fill: string, stroke: string)

  /** The level MapController.init installs; rows are indexed by y, columns by x. */
  function Level(): seq<seq<Block>>
  {
    [
      [Solid, Solid, Solid, Solid, Solid, Solid, Solid, Solid],
      [Solid, Air,   Air,   Air,   Solid, Air,   Air,   Solid],
      [Solid, Air,   Solid, Air,   Air,   Air,   Air,   Solid],
      [Solid, Air,   Solid, Air,   Air,   Air,   Air,   Solid],
      [Solid, Air,   Air,   Air,   Air,   Air,   Air,   Solid],
      [Solid, Air,   Air,   Air,   Air,   Solid, Air,   Solid],
      [Solid, Air,   Air,   Air,   Air,   Solid, Air,   Solid],
      [Solid, Solid, Solid, Solid, Solid, Solid, Solid, Solid]
    ]
  }

  /** A non-empty grid each row of which has as many cells as there are rows. */
  predicate Square(g: seq<seq<Block>>)
  {
    |g| > 0 && forall r :: 0 <= r < |g| ==> |g[r]| == |g|
  }

  /**
   * The level is an 8x8 square whose outer rows and columns are solid and
   * whose centre cell (4, 4) is air.
   */
  lemma LevelShape()
    ensures Square(Level()) && |Level()| == 8
    ensures forall i :: 0 <= i < 8 ==>
      Level()[0][i] == Solid && Level()[7][i] == Solid && Level()[i][0] == Solid && Level()[i][7] == Solid
    ensures Level()[4][4] == Air
  {
    var g := Level();
    assert forall r :: 0 <= r < 8 ==> |g[r]| == 8;
  }

  /** MapController.getColor */
  function GetColor(block: Block): Palette
  {
    match block
    case Air => Palette("#151D3B", "rgba(255, 255, 255, 0.15)")
    case Solid => Palette("#DADBBD", "rgba(0, 0, 0, 0.35)")
  }

  /** The two blocks are drawn with different fills and different strokes. */
  lemma PaletteDistinguishesBlocks(a: Block, b: Block)
    ensures a != b ==> GetColor(a).fill != GetColor(b).fill && GetColor(a).stroke != GetColor(b).stroke
  {
    assert "#151D3B"[1] != "#DADBBD"[1];
    assert "rgba(255, 255, 255, 0.15)"[5] != "rgba(0, 0, 0, 0.35)"[5];
  }

  class MapController {
    /** The grid; None before init and after destroy, where the source holds null. */
    var grid: Option<seq<seq<Block>>>

    constructor ()
      ensures grid == None
    {
      grid := None;
    }

    /** MapController.init: install the fixed level. */
    method Init()
      modifies this
      ensures grid == Some(Level()) && Ready()
    {
      grid := Some(Level());
      LevelShape();
    }

    /** MapController.destroy */
    method Destroy()
      modifies this
      ensures grid == None
    {
      grid := None;
    }

    /** A grid is installed and it is square. */
    predicate Ready()
      reads this
    {
      grid.Some? && Square(grid.value)
    }

    /** The width getter: the number of rows. */
    function Width(): nat
      reads this
      requires grid.Some?
    {
      |grid.value|
    }

    /** The height getter: the length of the first row. */
    function Height(): nat
      reads this
      requires grid.Some? && |grid.value| > 0
    {
      |grid.value[0]|
    }

    /**
     * MapController.get(x, y): None (the source's null) exactly when the point
     * lies outside [0, width) x [0, height); otherwise the cell in row floor(y),
     * column floor(x).
     */
    function Get(x: real, y: real): (r: Option<Block>)
      reads this
      requires Ready()
      ensures r.None? <==> x < 0.0 || x >= Width() as real || y < 0.0 || y >= Height() as real
      ensures r.Some? ==>
        0 <= y.Floor < |grid.value| && 0 <= x.Floor < |grid.value[y.Floor]| && r.value == grid.value[y.Floor][x.Floor]
    {
      if x < 0.0 || x >= Width() as real || y < 0.0 || y >= Height() as real then
        None
      else
        Some(grid.value[y.Floor][x.Floor])
    }

    /** MapController.get(v): the vector overload reads v's coordinates. */
    function GetAt(v: Vector2): (r: Option<Block>)
      reads this, v
      requires Ready()
      ensures r == Get(v.x, v.y)
    {
      Get(v.x, v.y)
    }

    /** MapController.getCellWidth: the canvas width split into one cell per column. */
    function GetCellWidth(canvasWidth: real): (r: real)
      reads this
      requires Ready()
      ensures r * Width() as real == canvasWidth
    {
      canvasWidth / Width() as real
    }

    /** MapController.getCellHeight: the canvas height split into one cell per row. */
    function GetCellHeight(canvasHeight: real): (r: real)
      reads this
      requires Ready()
      ensures r * Height() as real == canvasHeight
    {
      canvasHeight / Height() as real
    }

    /** MapController.getCellSize: a new vector holding the cell width and height. */
    method GetCellSize(canvasWidth: real, canvasHeight: real) returns (cell: Vector2)
      requires Ready()
      ensures fresh(cell)
      ensures cell.x * Width() as real == canvasWidth && cell.y * Height() as real == canvasHeight
    {
      cell := new Vector2(GetCellWidth(canvasWidth), GetCellHeight(canvasHeight));
    }
  }

  /** On a square grid the width (rows) and the height (first row) agree. */
  lemma SquareDimensions(m: MapController)
    requires m.Ready()
    ensures m.Width() == m.Height()
  {
  }

  /** On the installed level, every point of the outer ring of cells looks up a solid block. */
  lemma LevelBorderIsSolid(m: MapController, x: real, y: real)
    requires m.grid == Some(Level())
    requires 0.0 <= x < 8.0 && 0.0 <= y < 8.0
    requires x < 1.0 || x >= 7.0 || y < 1.0 || y >= 7.0
    ensures m.Ready() && m.Get(x, y) == Some(Solid)
  {
    LevelShape();
    var cx, cy := x.Floor, y.Floor;
    assert 0 <= cx < 8 && 0 <= cy < 8;
    assert cx == 0 || cx == 7 || cy == 0 || cy == 7;
  }
}
