# The Fountain of Objects, modelled in Dafny

A model of the engine of a small text adventure. The player walks through a
grid of rooms (the cave), finds the Fountain room, activates the fountain, and
returns to the Entrance room to win. The model covers the whole engine in
`Program.cs`:

- the cave `Map`: a fixed `rows x cols` two-dimensional array of room kinds,
  with a bounds check, a lookup that answers `OffTheMap` off the grid, and an
  in-place setter;
- the two commands, move and activate, carried out against the player's
  location and the fountain flag;
- the win condition and the turn loop `Run`;
- the mapping from input lines to commands, with the re-prompt on anything else;
- the two senses and the status shown at the start of each turn;
- the start-up at the top of the file: a 4 x 4 cave, entrance at (0, 0),
  fountain at (3, 2).

Files, one module each:

- `world.dfy` (`World`): locations, directions, room kinds, the direction
  offsets (`Target`), and `Layout`, the abstract value of a map (its size and
  cells), with `InBounds`, `RoomAt`, `NewLayout` and `WithRoom`.
- `cave_map.dfy` (`CaveMap`): the class `Map` over an `array2<RoomType>`. A
  ghost field `layout` holds the abstract value, and `Valid()` ties the array
  to it.
- `rules.dfy` (`Rules`): the game's rules on plain values. This covers what a
  command does (`Move`, `Activate`, `Step`) and when the game is won
  (`HasWon`). It has the token mapping (`Parse`, and its inverse `Token`), the
  senses (`CanSense`, `Describe`, `Perceive`, `Status`), and a session as a
  fold over the lines read (`Turn`, `Play`). The lemmas about sessions live
  here too.
- `engine.dfy` (`Engine`): the classes `Player` and `Game`. `Execute`,
  `GetCommand`, `Run` and `DisplayStatus` are methods proved against `Rules`.
- `program.dfy` (`Scenario`): the start-up as the method `Program`, plus the
  proof that the route East x3, North x2, activate, West x3, South x2 wins.

Axes follow the code. North is `(row, column + 1)`, South is
`(row, column - 1)`, East is `(row + 1, column)` and West is
`(row - 1, column)`.

The input source is a finite sequence of lines. `None` stands for the `null`
that `Console.ReadLine` returns. Messages are abstract `Rules.Message` values
with no wording. `Game.board` is the game's `Map` property, because `map` is
a reserved word in Dafny.

The code does not prevent storing `OffTheMap`; `World.SentinelOnlyOffMap`
states what holds when it is not stored.

## Model

| member | source | states |
|---|---|---|
| World.Target | Program.cs:134-141 | one step along one axis: North/South keep the row, East/West keep the column, the coordinate sum changes by exactly one, and it grows exactly for North and East |
| World.TargetOpposite | Program.cs:134-141 | a step followed by a step in the opposite direction returns to the starting location |
| World.NewLayout | Program.cs:88-93 | a fresh map has the requested size and reads `Normal` in every on-map room and `OffTheMap` everywhere else |
| World.WithRoom | Program.cs:113-116 | after storing `t` at an on-map location the lookup there gives `t`, every other location reads as before, and the size is unchanged |
| World.SentinelOnlyOffMap | Program.cs:102-112 | fresh maps and stores of proper kinds keep `OffTheMap` out of the grid; on such a map a lookup answers `OffTheMap` exactly when the location is off the grid |
| CaveMap.Map.constructor | Program.cs:88-93 | the new map's abstract value is the all-`Normal` layout of the given size |
| CaveMap.Map.IsOnMap | Program.cs:94-101 | true iff `0 <= row < rows` and `0 <= column < cols` |
| CaveMap.Map.GetRoomTypeAtLocation | Program.cs:102-112 | `OffTheMap` for every off-map location, the stored room otherwise; reads the map and changes nothing |
| CaveMap.Map.SetRoomTypeAtLocation | Program.cs:113-116 | requires an on-map location (the array access is unchecked); afterwards the lookup there gives `t` and every other lookup is unchanged |
| Rules.Move | Program.cs:131-150 | with the target on the map the player ends exactly at the target; otherwise nothing changes; the fountain flag is never touched; a player on the map stays on it |
| Rules.MoveThenBack | Program.cs:131-150 | a successful move is undone by a move in the opposite direction |
| Rules.Activate | Program.cs:155-162 | never moves the player; the flag afterwards is on iff it was on or the player stands in the Fountain room |
| Rules.ActivateIdempotent | Program.cs:155-162 | activating twice is the same as activating once, and once the fountain is on activating changes nothing |
| Rules.Step | Program.cs:35 | carrying out either command keeps a player on the map and never switches the fountain off; a move never touches the flag, activation never moves the player |
| Rules.Parse | Program.cs:58-63 | exactly the five tokens are understood, each as its own command (`Parse` is the inverse of `Token`); every other line, including a missing one, gives no command |
| Rules.Describe | Program.cs:194-220 | the entrance sense reports the entrance light; the fountain sense reports rushing water exactly when the fountain is on and dripping exactly when it is off; no sense reports a position or a wall |
| Rules.Perceive | Program.cs:43-49 | the reports of the senses that fire: never more reports than senses, every sense that fires is reported, and nothing else is |
| Rules.PerceiveSingle | Program.cs:45-48 | one sense gives its report exactly once when it fires and nothing when it does not |
| Rules.PerceiveAppend | Program.cs:43-49 | the reports of two runs of senses are the first run's followed by the second's, so reports come in registration order, one per sense that fires |
| Rules.StatusCases | Program.cs:39-50 | the status is the position, then the entrance light in the Entrance room, or the fountain's sound (rushing if on, dripping if off) in the Fountain room, and nothing else; the two senses never fire together |
| Rules.PlaySkip | Program.cs:53-64 | lines that are not understood leave the game state unchanged |
| Rules.ReadThrough | Program.cs:31-35 | reading up to the first understood line and carrying out its command is the fold over those lines, and no state passed on the way is a won one |
| Rules.PlayInvariants | Program.cs:31-36 | over a whole session the player stays on the map and the fountain, once on, stays on |
| Rules.PlayStopsOnceWon | Program.cs:31-36 | once the game is won, further lines change nothing |
| Rules.FountainNeedsActivation | Program.cs:155-162 | the fountain comes on only through an "activate fountain" line read while standing in the Fountain room |
| Engine.Player.constructor | Program.cs:72-75 | the player starts at the given location |
| Engine.Game.constructor | Program.cs:16-26 | the game holds the given player, map and flag, and the entrance sense is registered before the fountain sense |
| Engine.Game.CurrentRoom | Program.cs:27 | the room kind at the player's location, `OffTheMap` if the player is off the grid |
| Engine.Game.HasWon | Program.cs:28 | true iff the current room is the Entrance and the fountain is on |
| Engine.Game.CanSense | Program.cs:185-209 | the entrance sense fires iff the player is in the Entrance room, the fountain sense iff in the Fountain room |
| Engine.Game.DisplayStatus | Program.cs:39-50 | the loop over the registered senses yields exactly the status `Rules.Status` of the current state |
| Engine.Game.Execute | Program.cs:131-162 | the new player location and flag are the rules' `Step` of the old ones, and a wall message is emitted exactly when a move is blocked; the map is not touched |
| Engine.Game.GetCommand | Program.cs:53-64 | reads lines until one is understood and returns its command; every line skipped was not understood; no command only when the lines run out |
| Engine.Game.Run | Program.cs:29-38 | the final state is the fold of the lines read; the loop stops only when the game is won or the lines run out; no line is read once the game is won |
| Scenario.SetupRooms | Program.cs:1-6 | the start-up cave has the entrance at (0, 0), the fountain at (3, 2), and every other room `Normal` |
| Scenario.RouteWins | Program.cs:1-7 | on any 4 x 4 cave whose only entrance is at (0, 0) and whose fountain is at (3, 2), East x3, North x2, activate, West x3, South x2 from (0, 0) wins |
| Scenario.WinningRouteWins | Program.cs:1-7 | the start-up cave is such a cave, so the route wins there |
| Scenario.Program | Program.cs:1-7 | start-up then `Run`: won iff the fold of the lines read wins on the start-up cave; stops early only when won; the winning route wins |

## Left out

- Console output: the wording of every message, the separator line and the
  victory line printed after `Run` (Program.cs:37) are left out. Messages are
  abstract values, and `Run` does not collect the status and wall messages.
- The "I did not understand" message (Program.cs:63) is not emitted. `GetCommand`
  skips such lines without a trace.
- End of input: at end of input `Console.ReadLine` returns `null`, and
  `GetCommand` would re-prompt forever. In the model the lines run out instead,
  and `GetCommand` and `Run` then return.
- `Player.GetLocation` (Program.cs:76-79) only prints.
- `Room` (Program.cs:165-175) is never used.
- The `_ => currentLocation` arm (Program.cs:140) is not modelled. It cannot
  be reached, because a `MoveCommand` is only ever built with one of the four
  named directions (Program.cs:58-61).
- The settable `Game.Player` and `Game.Map` properties are never reassigned,
  so they are constant fields.
- `Map.Rows` and `Map.Cols` are read only to size the array (Program.cs:92)
  and are not kept after construction, because `IsOnMap` asks the array for
  its lengths. The model keeps only the array.
- CaveMap.Map.constructor: requires non-negative sizes. The exception that
  allocating an array of negative size throws (Program.cs:92) is not
  modelled; the game only ever builds a 4 x 4 map.
- 32-bit integers: locations are unbounded integers. A player on the map is
  never within one step of the `int` limits, so `column + 1` and `row - 1`
  cannot wrap.
- Hazard rooms, pits and the alive flag do not exist in the code and are not
  modelled.
