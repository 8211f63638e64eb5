/** The cave of the Wumpus World game: coordinates, the four headings,
    what a cell may hold, and the grid of cells (app.js:3-11, 48-55). */
module Board {

  /** Side of the square cave (app.js:4). */
  const GridSize: int := 4

  /** A cell coordinate `(x, y)`: x grows to the right, y grows upwards. */
  type Pos = (int, int)

  /** The entrance: the player starts here and may only climb out here (app.js:28-29, 304). */
  const Start: Pos := (1, 1)

  datatype Option<T> = None | Some(value: T)

  /** The bounds test the game repeats at app.js:164, 272 and 340. */
  predicate Inside(p: Pos) {
    1 <= p.0 <= GridSize && 1 <= p.1 <= GridSize
  }

  /** Every cell of the cave. */
  function AllCells(): (cells: set<Pos>)
    ensures forall p :: p in cells <==> Inside(p)
  {
    var cells := set x, y | 1 <= x <= GridSize && 1 <= y <= GridSize :: (x, y);
    assert forall p :: Inside(p) ==> (p.0, p.1) in cells;
    cells
  }

  /** A heading, as its index in the list up, right, down, left (app.js:5). */
  type Dir = d: int | 0 <= d < 4

  const Up: Dir := 0
  const Right: Dir := 1
  const Down: Dir := 2
  const Left: Dir := 3

  /** The x part of a heading's unit vector (app.js:6-11). */
  function DX(d: Dir): int {
    if d == Right then 1 else if d == Left then -1 else 0
  }

  /** The y part of a heading's unit vector (app.js:6-11). */
  function DY(d: Dir): int {
    if d == Up then 1 else if d == Down then -1 else 0
  }

  /** The cell one step from `p` along `d`: position plus unit vector. */
  function Next(p: Pos, d: Dir): Pos {
    (p.0 + DX(d), p.1 + DY(d))
  }

  /** The cell `k` steps from `p` along `d`, written without the unit vector. */
  function Along(p: Pos, d: Dir, k: int): Pos {
    if d == Up then (p.0, p.1 + k)
    else if d == Right then (p.0 + k, p.1)
    else if d == Down then (p.0, p.1 - k)
    else (p.0 - k, p.1)
  }

  /** How far `p` lies from the wall ahead along `d`: the number of steps that
      stay inside the cave when `p` is inside it, one less after each step. */
  function Reach(p: Pos, d: Dir): int {
    if d == Up then GridSize - p.1
    else if d == Right then GridSize - p.0
    else if d == Down then p.1 - 1
    else p.0 - 1
  }

  /** Walking `k + 1` steps is one step and then `k` more. */
  lemma AlongAfterStep(p: Pos, d: Dir, k: int)
    ensures Along(Next(p, d), d, k) == Along(p, d, k + 1)
  {
  }

  /** Once a step leaves the cave, so does every longer walk from an inside cell. */
  lemma LeavingIsFinal(p: Pos, d: Dir, k: int)
    requires Inside(p) && !Inside(Next(p, d)) && 1 <= k
    ensures !Inside(Along(p, d, k))
  {
  }

  /** Orthogonal neighbours: the cells one unit away in x or in y, but not both. */
  predicate Adjacent(p: Pos, q: Pos) {
    (p.0 == q.0 && (p.1 - q.1 == 1 || q.1 - p.1 == 1)) ||
    (p.1 == q.1 && (p.0 - q.0 == 1 || q.0 - p.0 == 1))
  }

  /** The four neighbours of a cell are exactly the cells one step away along some heading. */
  lemma AdjacentIsOneStep(p: Pos, q: Pos)
    ensures Adjacent(p, q) <==> exists d: Dir :: q == Next(p, d)
  {
    if Adjacent(p, q) {
      if q.1 == p.1 + 1 {
        assert q == Next(p, Up);
      } else if q.0 == p.0 + 1 {
        assert q == Next(p, Right);
      } else if q.1 == p.1 - 1 {
        assert q == Next(p, Down);
      } else {
        assert q == Next(p, Left);
      }
    }
  }

  /** What a cell may hold (app.js:53, 70, 77, 84); a flag never set reads as false. */
  datatype Cell = Cell(wumpus: bool, gold: bool, pit: bool)

  const EmptyCell: Cell := Cell(false, false, false)

  /** The cave: one cell record per coordinate, keyed like the "x,y" keys of app.js:53. */
  type Grid = map<Pos, Cell>

  /** The grid holds exactly the cells of the cave. */
  predicate FullGrid(g: Grid) {
    g.Keys == AllCells()
  }

  /** The record of cell `p`; only ever consulted for cells inside a full grid. */
  function CellAt(g: Grid, p: Pos): Cell {
    if p in g then g[p] else EmptyCell
  }

  function WumpusCells(g: Grid): set<Pos> {
    set p | p in g.Keys && g[p].wumpus
  }

  function GoldCells(g: Grid): set<Pos> {
    set p | p in g.Keys && g[p].gold
  }

  function PitCells(g: Grid): set<Pos> {
    set p | p in g.Keys && g[p].pit
  }
}
