/** Room.java: the static map of cells with its obstacle test, and the visited and cleaned sets. */
module Grid {
  import opened Wrappers

  /** A cell of the source's position value type. */
  datatype Pos = Pos(x: int, y: int)

  /** A map cell: a character, or None where the source holds null (outside the room). */
  type Cell = Option<char>

  /** Rows of cells; rows may differ in length. */
  type CellMap = seq<seq<Cell>>

  const NO_ROOM_NULL_CHAR: Cell := None
  const COLUMN_CHAR: char := 'C'
  const SPACE_CHAR: char := 'S'

  /** The position names a cell of the map, checked against the length of its own row. */
  predicate InBounds(cells: CellMap, p: Pos)
  {
    0 <= p.y < |cells| && 0 <= p.x < |cells[p.y]|
  }

  /** Room.isObstacle: a wall (off the map), a column, or a null cell. */
  function IsObstacle(cells: CellMap, p: Pos): (r: bool)
    ensures p.x < 0 || p.y < 0 || p.y >= |cells| ==> r
    ensures 0 <= p.y < |cells| && p.x >= |cells[p.y]| ==> r
    ensures !r <==> InBounds(cells, p) && cells[p.y][p.x] == Some(SPACE_CHAR)
  {
    if p.x < 0 then true
    else if p.y < 0 then true
    else if p.y >= |cells| then true
    else if p.x >= |cells[p.y]| then true
    else cells[p.y][p.x] != Some(SPACE_CHAR)
  }

  /** Per-row bounds: on a jagged map a cell past a short row is a wall, a longer row is not. */
  lemma JaggedRows()
    ensures var cells := [[Some(SPACE_CHAR)], [Some(SPACE_CHAR), Some(SPACE_CHAR)]];
            IsObstacle(cells, Pos(1, 0)) && !IsObstacle(cells, Pos(1, 1))
  {
  }

  lemma ColumnAndNullAreObstacles(cells: CellMap, p: Pos)
    requires InBounds(cells, p)
    requires cells[p.y][p.x] == Some(COLUMN_CHAR) || cells[p.y][p.x] == NO_ROOM_NULL_CHAR
    ensures IsObstacle(cells, p)
  {
  }

  /** The room the robot cleans: a fixed map and two growing position sets. */
  class Room {
    const cells: CellMap
    var visited: set<Pos>
    var cleaned: set<Pos>

    constructor (cells: CellMap)
      ensures this.cells == cells && visited == {} && cleaned == {}
    {
      this.cells := cells;
      visited := {};
      cleaned := {};
    }

    /** Room.visited: set insertion; idempotent, and the cleaned set is untouched. */
    method MarkVisited(p: Pos)
      modifies this
      ensures visited == old(visited) + {p} && cleaned == old(cleaned)
    {
      visited := visited + {p};
    }

    /** Room.cleaned: set insertion; idempotent, and the visited set is untouched. */
    method MarkCleaned(p: Pos)
      modifies this
      ensures cleaned == old(cleaned) + {p} && visited == old(visited)
    {
      cleaned := cleaned + {p};
    }

    method GetVisited() returns (s: set<Pos>)
      ensures s == visited
    {
      s := visited;
    }

    method GetCleaned() returns (s: set<Pos>)
      ensures s == cleaned
    {
      s := cleaned;
    }
  }
}
