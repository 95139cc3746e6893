/** The running game: a player object, the map, the fountain flag, and the
    turn loop, each proved against the value-level `Rules`. */
module Engine {
  import opened World
  import opened CaveMap
  import Rules

  class Player {
    var location: Location

    constructor (start: Location)
      ensures location == start
    {
      location := start;
    }
  }

  class Game {
    const player: Player
    /** The game's map (`map` is a reserved word). */
    const board: Map
    var isFountainOn: bool
    /** The senses consulted each turn, in registration order. */
    const senses: seq<Rules.Sense> := Rules.RegisteredSenses

    constructor (player: Player, board: Map, isFountainOn: bool)
      ensures this.player == player && this.board == board && this.isFountainOn == isFountainOn
      ensures senses == [Rules.EntranceSense, Rules.FountainSense]
    {
      this.player := player;
      this.board := board;
      this.isFountainOn := isFountainOn;
    }

    ghost predicate Valid()
      reads this, board, board.rooms
    {
      board.Valid()
    }

    /** The part of the game that commands change. */
    ghost function State(): Rules.GameState
      reads this, player
    {
      Rules.GameState(player.location, isFountainOn)
    }

    function CurrentRoom(): (room: RoomType)
      reads this, player, board, board.rooms
      requires Valid()
      ensures room == RoomAt(board.layout, player.location)
    {
      board.GetRoomTypeAtLocation(player.location)
    }

    function HasWon(): (won: bool)
      reads this, player, board, board.rooms
      requires Valid()
      ensures won <==> RoomAt(board.layout, player.location) == Entrance && isFountainOn
      ensures won == Rules.HasWon(board.layout, State())
    {
      CurrentRoom() == Entrance && isFountainOn
    }

    /** Whether `sense` fires in the current state. */
    function CanSense(sense: Rules.Sense): (fires: bool)
      reads this, player, board, board.rooms
      requires Valid()
      ensures fires == Rules.CanSense(sense, board.layout, State())
    {
      match sense
      case EntranceSense => CurrentRoom() == Entrance
      case FountainSense => CurrentRoom() == Fountain
    }

    /** The status shown at the start of a turn: the position, then the
        report of every registered sense that fires, in order. */
    method DisplayStatus() returns (msgs: seq<Rules.Message>)
      requires Valid()
      ensures msgs == Rules.Status(board.layout, State())
    {
      msgs := [Rules.Position(player.location)];
      for i := 0 to |senses|
        invariant msgs == [Rules.Position(player.location)] + Rules.Perceive(senses[..i], board.layout, State())
      {
        var sense := senses[i];
        if CanSense(sense) {
          msgs := msgs + [Rules.Describe(sense, isFountainOn)];
        }
        assert senses[..i + 1][..i] == senses[..i];
      }
      assert senses[..|senses|] == Rules.RegisteredSenses;
    }

    /** Carries out one command. A move goes to the neighbouring location
        when that is on the map and otherwise reports a wall; activation
        switches the fountain on in the Fountain room only. */
    method Execute(command: Rules.Command) returns (msgs: seq<Rules.Message>)
      requires Valid()
      modifies this`isFountainOn, player
      ensures Valid()
      ensures State() == Rules.Step(board.layout, old(State()), command)
      ensures msgs == if command.MoveCommand? && Rules.Blocked(board.layout, old(State()), command.direction)
                      then [Rules.Wall] else []
    {
      match command
      case MoveCommand(direction) =>
        var currentLocation := player.location;
        var newLocation := Target(currentLocation, direction);
        if board.IsOnMap(newLocation) {
          player.location := newLocation;
          msgs := [];
        } else {
          msgs := [Rules.Wall];
        }
      case ActivateFountainCommand =>
        var currentRoom := board.GetRoomTypeAtLocation(player.location);
        if currentRoom == Fountain {
          isFountainOn := true;
        }
        msgs := [];
    }

    /** Reads lines from `inputs`, starting at `from`, until one names a
        command. `next` is the position after the last line read; the
        result is `None` only when the lines run out first. */
    method GetCommand(inputs: seq<Option<string>>, from: nat) returns (command: Option<Rules.Command>, next: nat)
      requires from <= |inputs|
      ensures from <= next <= |inputs|
      ensures command.Some? ==> from < next && Rules.Parse(inputs[next - 1]) == command
      ensures command.None? ==> next == |inputs|
      ensures forall j :: from <= j < next && (command.None? || j < next - 1) ==> Rules.Parse(inputs[j]).None?
    {
      next := from;
      while next < |inputs|
        invariant from <= next <= |inputs|
        invariant forall j :: from <= j < next ==> Rules.Parse(inputs[j]).None?
      {
        var input := inputs[next];
        next := next + 1;
        var parsed := Rules.Parse(input);
        if parsed.Some? {
          return parsed, next;
        }
      }
      command := None;
    }

    /** The turn loop: commands are read from `inputs` and carried out
        until the game is won or the lines run out. `used` counts the lines
        read; none is read once the game is won. */
    method Run(inputs: seq<Option<string>>) returns (used: nat)
      requires Valid()
      modifies this`isFountainOn, player
      ensures Valid() && used <= |inputs|
      ensures State() == Rules.Play(board.layout, old(State()), inputs[..used])
      ensures HasWon() || used == |inputs|
      ensures forall k :: 0 <= k < used ==> !Rules.HasWon(board.layout, Rules.Play(board.layout, old(State()), inputs[..k]))
    {
      ghost var layout := board.layout;
      ghost var start := State();
      used := 0;
      while used < |inputs| && !HasWon()
        invariant Valid() && used <= |inputs| && board.layout == layout
        invariant State() == Rules.Play(layout, start, inputs[..used])
        invariant forall k :: 0 <= k < used ==> !Rules.HasWon(layout, Rules.Play(layout, start, inputs[..k]))
        decreases |inputs| - used
      {
        var command, next := GetCommand(inputs, used);
        Rules.ReadThrough(layout, start, inputs, used, next, command);
        if command.Some? {
          var msgs := Execute(command.value);
        }
        used := next;
      }
    }
  }
}
