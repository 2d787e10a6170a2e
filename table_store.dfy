/**
 * The shared UI state of the debts table: the selected period id and, per table cell,
 * whether its input is shown and the text typed into it.
 */
module TableStore {
  import opened Wrappers

  datatype CellState = CellState(id: string, showInput: bool, inputState: string)

  /** `Partial<CellState>`: the fields a write sets; absent fields are left as they are. */
  datatype CellPatch = CellPatch(id: Option<string>, showInput: Option<bool>, inputState: Option<string>)

  /** The state a cell has before anything was written for it. */
  function InitialCell(cellId: string): (r: CellState)
    ensures r.id == cellId && !r.showInput && r.inputState == ""
  {
    CellState(cellId, false, "")
  }

  /** `{ ...stored, ...patch }`. */
  function MergeCell(stored: CellState, patch: CellPatch): (r: CellState)
    ensures r.id == (if patch.id.Some? then patch.id.value else stored.id)
    ensures r.showInput == (if patch.showInput.Some? then patch.showInput.value else stored.showInput)
    ensures r.inputState == (if patch.inputState.Some? then patch.inputState.value else stored.inputState)
  {
    CellState(
      patch.id.GetOr(stored.id),
      patch.showInput.GetOr(stored.showInput),
      patch.inputState.GetOr(stored.inputState))
  }

  /** Writing a patch, then another, is writing their combination once (the later one wins). */
  lemma MergeCellTwice(stored: CellState, first: CellPatch, second: CellPatch)
    ensures MergeCell(MergeCell(stored, first), second) ==
            MergeCell(stored, CellPatch(
              if second.id.Some? then second.id else first.id,
              if second.showInput.Some? then second.showInput else first.showInput,
              if second.inputState.Some? then second.inputState else first.inputState))
  {
  }

  /** The atoms: `periodIdAtom` and the family `cellAtomFamily`, one atom per cell id. */
  class Store {
    var periodId: string
    /** The cells that have been written; every other cell id reads as its initial state. */
    var cells: map<string, CellState>

    constructor ()
      ensures periodId == "" && cells == map[]
      ensures forall cellId :: Cell(cellId) == InitialCell(cellId)
    {
      periodId := "";
      cells := map[];
    }

    /** Reading `cellAtomFamily(cellId)`. */
    function Cell(cellId: string): CellState
      reads this
    {
      if cellId in cells then cells[cellId] else InitialCell(cellId)
    }

    /** Setting `periodIdAtom`. */
    method SetPeriodId(periodId: string)
      modifies this
      ensures this.periodId == periodId && cells == old(cells)
    {
      this.periodId := periodId;
    }

    /** The writer of `cellAtomFamily(cellId)`: stores the stored state merged with `patch`. */
    method WriteCell(cellId: string, patch: CellPatch)
      modifies this
      ensures Cell(cellId) == MergeCell(old(Cell(cellId)), patch)
      ensures forall other :: other != cellId ==> Cell(other) == old(Cell(other))
      ensures cells == old(cells)[cellId := MergeCell(old(Cell(cellId)), patch)]
      ensures periodId == old(periodId)
    {
      cells := cells[cellId := MergeCell(Cell(cellId), patch)];
    }
  }
}
