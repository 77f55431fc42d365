/** The stage table: each known stage is a fixed list of coloured blocks to
    place on an empty board; any other stage is refused. */
module Puzzle {
  import Game

  /** One block to place: its cell and its index into the palette. */
  datatype Placement = Placement(row: int, col: int, color: int)

  datatype Result<T, E> = Ok(value: T) | Err(error: E)

  function Cell(p: Placement): (c: (int, int)) {
    (p.row, p.col)
  }

  /** The cells a list of placements occupies. */
  function Cells(ps: seq<Placement>): (cs: set<(int, int)>) {
    set p <- ps :: Cell(p)
  }

  /** No two placements name the same cell. */
  predicate DistinctCells(ps: seq<Placement>) {
    forall i, j :: 0 <= i < j < |ps| ==> Cell(ps[i]) != Cell(ps[j])
  }

  /** The colour index names an entry of the palette. */
  predicate InPalette(p: Placement) {
    0 <= p.color < |Game.BlockTypes|
  }

  /** The layout of `stage`: stages 1 and 2 succeed with three green blocks on
      distinct cells of the bottom two rows and first four columns; every other
      stage fails with "Unrecognized stage". */
  function LoadPuzzleData(stage: int): (r: Result<seq<Placement>, string>)
    ensures r.Ok? <==> stage == 1 || stage == 2
    ensures r.Err? ==> r.error == "Unrecognized stage"
    ensures r.Ok? ==> |r.value| == 3 && DistinctCells(r.value)
    ensures r.Ok? ==> forall p <- r.value ::
      && InPalette(p) && Game.BlockTypes[p.color] == "green"
      && 0 <= p.row <= 1 && 0 <= p.col <= 3
  {
    match stage
    case 1 => Ok([Placement(0, 0, 2), Placement(0, 1, 2), Placement(0, 3, 2)])
    case 2 => Ok([Placement(0, 0, 2), Placement(0, 1, 2), Placement(1, 1, 2)])
    case _ => Err("Unrecognized stage")
  }

  /** Stage 1: green blocks on the bottom row at columns 0, 1 and 3. */
  lemma Stage1Layout()
    ensures LoadPuzzleData(1).Ok?
    ensures Cells(LoadPuzzleData(1).value) == {(0, 0), (0, 1), (0, 3)}
    ensures forall p <- LoadPuzzleData(1).value :: p.color == 2
  {
    var ps := LoadPuzzleData(1).value;
    assert Cell(ps[0]) == (0, 0) && Cell(ps[1]) == (0, 1) && Cell(ps[2]) == (0, 3);
    assert Cells(ps) == {Cell(ps[0]), Cell(ps[1]), Cell(ps[2])};
  }

  /** Stage 2: green blocks at (0,0) and (0,1), and (1,1) stacked on the second. */
  lemma Stage2Layout()
    ensures LoadPuzzleData(2).Ok?
    ensures Cells(LoadPuzzleData(2).value) == {(0, 0), (0, 1), (1, 1)}
    ensures forall p <- LoadPuzzleData(2).value :: p.color == 2
  {
    var ps := LoadPuzzleData(2).value;
    assert Cell(ps[0]) == (0, 0) && Cell(ps[1]) == (0, 1) && Cell(ps[2]) == (1, 1);
    assert Cells(ps) == {Cell(ps[0]), Cell(ps[1]), Cell(ps[2])};
  }
}
