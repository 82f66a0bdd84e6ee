/**
 * The two decisions the chart page makes for each template slot: which CSS
 * grid cell it occupies, and whether it is drawn as a populated chart cell or
 * as an empty placeholder labelled with its id.
 */
module ChartLayout {
  import opened Wrappers
  import opened ChartTemplate

  /** Height of the main pyramid in grid rows. */
  const MaxPyramidHeight: int := 10

  /** A CSS grid position (1-based in CSS; the left ear uses row 0). */
  datatype GridCell = GridCell(column: int, row: int)

  /** Grid placement: ears go to fixed side columns, every other slot is flipped so row 1 is at the base. */
  function GridPlacement(slot: Slot): (r: GridCell)
    ensures slot.position == LeftEar ==> r == GridCell(2, 0)
    ensures slot.position == RightEar ==> r.column == 8 && slot.row == r.row + 16
    ensures slot.position == Default ==> slot.dof == r.column - 2 && slot.row == MaxPyramidHeight + 1 - r.row
  {
    if slot.position == LeftEar then GridCell(2, 0)
    else if slot.position == RightEar then GridCell(8, slot.row - 16)
    else GridCell(slot.dof + 2, MaxPyramidHeight - slot.row + 1)
  }

  /** The CSS classes a cell can carry. */
  datatype CellClass = CellBase | ChartCell | EmptyCell | IsParallel

  /** A chart cell as the page builds it: id, classes in order, grid position, and label text if any. */
  datatype Cell = Cell(id: string, classes: seq<CellClass>, placement: GridCell, text: Option<string>)

  /**
   * The cell for `slot`, given the ids that have chart data. Populated cells
   * get their thumbnail and a click handler (not modelled) and no text; empty
   * cells are labelled with the slot's address.
   */
  function BuildCell(slot: Slot, dataIds: set<string>): (c: Cell)
    ensures c.id == slot.id
    ensures |c.classes| >= 2 && c.classes[0] == CellBase
    ensures ChartCell in c.classes <==> slot.id in dataIds
    ensures EmptyCell in c.classes <==> slot.id !in dataIds
    ensures IsParallel in c.classes <==> slot.isParallelPyramid
    ensures c.text.Some? <==> slot.id !in dataIds
    ensures c.placement == GridPlacement(slot)
  {
    var hasData := slot.id in dataIds;
    var classes := [CellBase, if hasData then ChartCell else EmptyCell]
                   + (if slot.isParallelPyramid then [IsParallel] else []);
    Cell(slot.id, classes, GridPlacement(slot),
         if hasData then None else Some(NatToString(slot.dof) + "-DOF-" + NatToString(slot.row)))
  }

  // ---------------------------------------------------------------------------
  // Placement of the slots the template holds (every one is well formed, by
  // ChartTemplate.TemplateAt)
  // ---------------------------------------------------------------------------

  /** A default slot goes to column dof+2 and to a grid row in 1..10. */
  lemma DefaultPlacement(s: Slot)
    requires WellFormed(s) && s.position == Default
    ensures GridPlacement(s) == GridCell(s.dof + 2, 11 - s.row)
    ensures 2 <= GridPlacement(s).column <= 8
    ensures 1 <= GridPlacement(s).row <= MaxPyramidHeight
  {
  }

  /** All six left-ear slots share column 2, row 0. */
  lemma LeftEarPlacement(s: Slot)
    requires WellFormed(s) && s.position == LeftEar
    ensures GridPlacement(s) == GridCell(2, 0)
    ensures s.dof == 3 && 11 <= s.row <= 16
  {
  }

  /** Right-ear slots 17..22 go to column 8, rows 1..6. */
  lemma RightEarPlacement(s: Slot)
    requires WellFormed(s) && s.position == RightEar
    ensures GridPlacement(s) == GridCell(8, s.row - 16)
    ensures 1 <= GridPlacement(s).row <= 6
  {
  }

  /**
   * The only grid collisions are among the left-ear slots: two distinct slots
   * share a grid cell exactly when both are in the left ear. In particular the
   * default placement is injective, the right-ear rows are distinct, and no ear
   * cell coincides with a default cell (column 8 holds only slot 6-DOF-1, at
   * row 10).
   */
  lemma PlacementCollisions(s: Slot, t: Slot)
    requires WellFormed(s) && WellFormed(t) && s != t
    ensures GridPlacement(s) == GridPlacement(t) <==> s.position == LeftEar && t.position == LeftEar
  {
  }

  // ---------------------------------------------------------------------------
  // Cell kind and label
  // ---------------------------------------------------------------------------

  /** An empty cell is labelled with exactly its slot's id. */
  lemma EmptyCellText(s: Slot, dataIds: set<string>)
    requires WellFormed(s) && s.id !in dataIds
    ensures BuildCell(s, dataIds).text == Some(s.id)
  {
  }
}
