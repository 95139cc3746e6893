/** The cave map: a fixed-size two-dimensional array of room kinds, written
    in place while the game is set up. */
module CaveMap {
  import opened World

  class Map {
    /** The grid itself; its dimensions are fixed at construction. */
    const rooms: array2<RoomType>
    /** The abstract contents of `rooms`. */
    ghost var layout: Layout

    ghost predicate Valid()
      reads this, rooms
    {
      layout.Valid() && layout.rows == rooms.Length0 && layout.cols == rooms.Length1 &&
      forall r, c :: 0 <= r < rooms.Length0 && 0 <= c < rooms.Length1 ==> rooms[r, c] == layout.cells[r][c]
    }

    /** A `rows` x `cols` map; every room starts out `Normal`, the first
        member of `RoomType`. Negative sizes are rejected by the allocation. */
    constructor (rows: int, cols: int)
      requires 0 <= rows && 0 <= cols
      ensures Valid() && fresh(rooms)
      ensures layout == NewLayout(rows, cols)
    {
      rooms := new RoomType[rows, cols]((r, c) => Normal);
      layout := NewLayout(rows, cols);
    }

    /** Whether `loc` lies within the array's two dimensions. */
    function IsOnMap(loc: Location): (b: bool)
      reads this, rooms
      requires Valid()
      ensures b <==> 0 <= loc.row < layout.rows && 0 <= loc.column < layout.cols
      ensures b == InBounds(layout, loc)
    {
      loc.row >= 0 && loc.row < rooms.Length0 && loc.column >= 0 && loc.column < rooms.Length1
    }

    /** The stored room kind, or `OffTheMap` for a location off the grid. */
    function GetRoomTypeAtLocation(loc: Location): (t: RoomType)
      reads this, rooms
      requires Valid()
      ensures !InBounds(layout, loc) ==> t == OffTheMap
      ensures InBounds(layout, loc) ==> t == layout.cells[loc.row][loc.column]
      ensures t == RoomAt(layout, loc)
    {
      if IsOnMap(loc) then rooms[loc.row, loc.column] else OffTheMap
    }

    /** Stores `t` at `loc`. The array access is unchecked in the game, so
        `loc` must be on the map. Every other room keeps its kind. */
    method SetRoomTypeAtLocation(loc: Location, t: RoomType)
      requires Valid() && IsOnMap(loc)
      modifies this, rooms
      ensures Valid()
      ensures layout == WithRoom(old(layout), loc, t)
      ensures GetRoomTypeAtLocation(loc) == t
      ensures forall other :: other != loc ==> GetRoomTypeAtLocation(other) == old(GetRoomTypeAtLocation(other))
    {
      rooms[loc.row, loc.column] := t;
      layout := WithRoom(layout, loc, t);
    }
  }
}
