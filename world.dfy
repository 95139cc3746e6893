/** Value types of the cave: locations, directions, room kinds, and the
    abstract layout (a rows x cols grid of room kinds) that a `CaveMap.Map`
    object stands for. */
module World {

  datatype Option<T> = None | Some(value: T)

  /** A coordinate pair. Any pair of integers is a location; whether it lies
      on the map is a question for the map. */
  datatype Location = Location(row: int, column: int)

  datatype Direction = North | South | West | East

  /** `Normal` comes first, so a freshly allocated grid holds `Normal` rooms.
      `OffTheMap` is the answer for any location outside the grid. */
  datatype RoomType = Normal | Entrance | Fountain | OffTheMap

  /** The location one step away in direction `d`. The game's axes are
      unusual: North and South change the column, East and West the row. */
  function Target(loc: Location, d: Direction): (next: Location)
    ensures d in {North, South} <==> next.row == loc.row
    ensures d in {East, West} <==> next.column == loc.column
    ensures (next.row - loc.row) + (next.column - loc.column) in {1, -1}
    ensures d in {North, East} <==> next.row + next.column > loc.row + loc.column
  {
    match d
    case North => Location(loc.row, loc.column + 1)
    case South => Location(loc.row, loc.column - 1)
    case East => Location(loc.row + 1, loc.column)
    case West => Location(loc.row - 1, loc.column)
  }

  /** The direction that undoes a step in direction `d`. */
  function Opposite(d: Direction): Direction
  {
    match d
    case North => South
    case South => North
    case East => West
    case West => East
  }

  /** A step followed by a step in the opposite direction returns to the start. */
  lemma TargetOpposite(loc: Location, d: Direction)
    ensures Target(Target(loc, d), Opposite(d)) == loc
  {
  }

  /** The abstract contents of a map: `rows` x `cols` room kinds, row-major. */
  datatype Layout = Layout(rows: nat, cols: nat, cells: seq<seq<RoomType>>)
  {
    /** Every row holds exactly `cols` cells. */
    predicate Valid()
    {
      |cells| == rows && forall r :: 0 <= r < rows ==> |cells[r]| == cols
    }
  }

  predicate InBounds(m: Layout, loc: Location)
  {
    0 <= loc.row < m.rows && 0 <= loc.column < m.cols
  }

  /** The room kind at `loc`, or `OffTheMap` outside the grid. */
  function RoomAt(m: Layout, loc: Location): RoomType
    requires m.Valid()
  {
    if InBounds(m, loc) then m.cells[loc.row][loc.column] else OffTheMap
  }

  /** A layout of the given size in which every room is `Normal`. */
  function NewLayout(rows: nat, cols: nat): (m: Layout)
    ensures m.Valid() && m.rows == rows && m.cols == cols
    ensures forall loc :: InBounds(m, loc) ==> RoomAt(m, loc) == Normal
    ensures forall loc :: !InBounds(m, loc) ==> RoomAt(m, loc) == OffTheMap
  {
    Layout(rows, cols, seq(rows, _ => seq(cols, _ => Normal)))
  }

  /** `m` with the room at `loc` replaced by `t`. */
  function WithRoom(m: Layout, loc: Location, t: RoomType): (m': Layout)
    requires m.Valid() && InBounds(m, loc)
    ensures m'.Valid() && m'.rows == m.rows && m'.cols == m.cols
    ensures RoomAt(m', loc) == t
    ensures forall other :: other != loc ==> RoomAt(m', other) == RoomAt(m, other)
  {
    Layout(m.rows, m.cols, m.cells[loc.row := m.cells[loc.row][loc.column := t]])
  }

  /** No room on the grid holds the sentinel `OffTheMap`. */
  ghost predicate SentinelFree(m: Layout)
    requires m.Valid()
  {
    forall loc :: InBounds(m, loc) ==> RoomAt(m, loc) != OffTheMap
  }

  /** A fresh layout is sentinel-free, and storing a proper room kind keeps it
      so; on such a layout a lookup answers `OffTheMap` exactly off the grid. */
  lemma SentinelOnlyOffMap(m: Layout, loc: Location, t: RoomType)
    requires m.Valid()
    ensures SentinelFree(NewLayout(m.rows, m.cols))
    ensures SentinelFree(m) && InBounds(m, loc) && t != OffTheMap ==> SentinelFree(WithRoom(m, loc, t))
    ensures SentinelFree(m) ==> (RoomAt(m, loc) == OffTheMap <==> !InBounds(m, loc))
  {
  }
}
