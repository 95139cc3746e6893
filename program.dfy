/** The game's start-up: a 4 x 4 cave with the entrance at (0, 0) and the
    fountain at (3, 2), the player at the entrance with the fountain off,
    then the turn loop over the lines typed. */
module Scenario {
  import opened World
  import opened CaveMap
  import opened Engine
  import Rules

  /** The cave the game sets up. */
  function SetupLayout(): (m: Layout)
    ensures m.Valid() && m.rows == 4 && m.cols == 4
  {
    WithRoom(WithRoom(NewLayout(4, 4), Location(0, 0), Entrance), Location(3, 2), Fountain)
  }

  /** The player starts at the entrance with the fountain off. */
  function StartState(): Rules.GameState
  {
    Rules.GameState(Location(0, 0), false)
  }

  /** Entrance at (0, 0), Fountain at (3, 2), every other room `Normal`. */
  lemma SetupRooms(loc: Location)
    ensures RoomAt(SetupLayout(), loc) ==
      if !InBounds(SetupLayout(), loc) then OffTheMap
      else if loc == Location(0, 0) then Entrance
      else if loc == Location(3, 2) then Fountain
      else Normal
  {
  }

  /** East three times, North twice, activate, West three times, South twice. */
  function WinningRoute(): seq<Option<string>>
  {
    [Some("move east"), Some("move east"), Some("move east"),
     Some("move north"), Some("move north"),
     Some("activate fountain"),
     Some("move west"), Some("move west"), Some("move west"),
     Some("move south"), Some("move south")]
  }

  /** A 4 x 4 cave whose only entrance is at (0, 0) and whose fountain is at
      (3, 2). The route would win without the "only": a won state absorbs every
      later line. The condition only spares `RouteWins` a case split on an
      early win at each step. */
  ghost predicate RouteCave(m: Layout)
  {
    m.Valid() && m.rows == 4 && m.cols == 4 &&
    RoomAt(m, Location(3, 2)) == Fountain && RoomAt(m, Location(0, 0)) == Entrance &&
    forall loc :: RoomAt(m, loc) == Entrance ==> loc == Location(0, 0)
  }

  /** A line of the route taken from a known state leads to the next state. */
  lemma RouteStep(m: Layout, prefix: seq<Option<string>>, input: Option<string>, after: Rules.GameState)
    requires RouteCave(m) && Rules.Turn(m, Rules.Play(m, StartState(), prefix), input) == after
    ensures Rules.Play(m, StartState(), prefix + [input]) == after
  {
  }

  /** On any such cave the route walks east to (3, 0), north to the fountain
      at (3, 2), switches it on, walks west to (0, 2) and south back to the
      entrance, where the game is won. */
  lemma {:induction false} RouteWins(m: Layout)
    requires RouteCave(m)
    ensures Rules.HasWon(m, Rules.Play(m, StartState(), WinningRoute()))
  {
    var e, n, a := Some("move east"), Some("move north"), Some("activate fountain");
    var w, s := Some("move west"), Some("move south");
    var p0: seq<Option<string>> := [];
    assert Rules.Play(m, StartState(), p0) == StartState();
    RouteStep(m, p0, e, Rules.GameState(Location(1, 0), false));
    var p1 := p0 + [e];
    RouteStep(m, p1, e, Rules.GameState(Location(2, 0), false));
    var p2 := p1 + [e];
    RouteStep(m, p2, e, Rules.GameState(Location(3, 0), false));
    var p3 := p2 + [e];
    RouteStep(m, p3, n, Rules.GameState(Location(3, 1), false));
    var p4 := p3 + [n];
    RouteStep(m, p4, n, Rules.GameState(Location(3, 2), false));
    var p5 := p4 + [n];
    RouteStep(m, p5, a, Rules.GameState(Location(3, 2), true));
    var p6 := p5 + [a];
    RouteStep(m, p6, w, Rules.GameState(Location(2, 2), true));
    var p7 := p6 + [w];
    RouteStep(m, p7, w, Rules.GameState(Location(1, 2), true));
    var p8 := p7 + [w];
    RouteStep(m, p8, w, Rules.GameState(Location(0, 2), true));
    var p9 := p8 + [w];
    RouteStep(m, p9, s, Rules.GameState(Location(0, 1), true));
    var p10 := p9 + [s];
    RouteStep(m, p10, s, Rules.GameState(Location(0, 0), true));
    var p11 := p10 + [s];
    assert p11 == WinningRoute();
  }

  /** The cave the game sets up is one the route wins. */
  lemma WinningRouteWins()
    ensures Rules.HasWon(SetupLayout(), Rules.Play(SetupLayout(), StartState(), WinningRoute()))
  {
    forall loc | RoomAt(SetupLayout(), loc) == Entrance
      ensures loc == Location(0, 0)
    {
      SetupRooms(loc);
    }
    SetupRooms(Location(3, 2));
    SetupRooms(Location(0, 0));
    RouteWins(SetupLayout());
  }

  /** The game's start-up followed by the turn loop over `inputs`: a 4 x 4
      map, the player at the entrance (0, 0), the fountain off, the entrance
      and fountain rooms placed, then `Run`. It reports how many lines were
      read and whether the game was won; the winning route wins. */
  method Program(inputs: seq<Option<string>>) returns (used: nat, won: bool)
    ensures used <= |inputs|
    ensures won <==> Rules.HasWon(SetupLayout(), Rules.Play(SetupLayout(), StartState(), inputs[..used]))
    ensures used < |inputs| ==> won
    ensures inputs == WinningRoute() ==> won
  {
    var caveMap := new Map(4, 4);
    var start := Location(0, 0);
    var player := new Player(start);
    var game := new Game(player, caveMap, false);
    game.board.SetRoomTypeAtLocation(start, Entrance);
    game.board.SetRoomTypeAtLocation(Location(3, 2), Fountain);
    assert game.board.layout == SetupLayout();
    used := game.Run(inputs);
    won := game.HasWon();
    if inputs == WinningRoute() && used == |inputs| {
      WinningRouteWins();
      assert inputs[..used] == inputs;
    }
  }
}
