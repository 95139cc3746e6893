/** The game's rules on plain values: what a command does to the player's
    location and the fountain flag, when the game is won, how an input line
    becomes a command, what the senses report, and a whole session as a fold
    over the lines read. The `Engine.Game` class is proved against these. */
module Rules {
  import opened World

  /** The two kinds of command the player can give. */
  datatype Command = MoveCommand(direction: Direction) | ActivateFountainCommand

  /** The state a command changes: where the player is and whether the
      fountain has been switched on. */
  datatype GameState = GameState(loc: Location, fountainOn: bool)

  /** What the game reports, without its wording. */
  datatype Message =
    | Position(at: Location)
    | EntranceLight
    | FountainDripping
    | FountainRushing
    | Wall

  // ---------------------------------------------------------------------
  // Commands

  /** A move is blocked when the neighbouring location is off the map. */
  predicate Blocked(m: Layout, s: GameState, d: Direction)
  {
    !InBounds(m, Target(s.loc, d))
  }

  /** A move goes to the neighbour if it is on the map and otherwise stays put. */
  function Move(m: Layout, s: GameState, d: Direction): (s': GameState)
    ensures s'.fountainOn == s.fountainOn
    ensures !Blocked(m, s, d) ==> s'.loc == Target(s.loc, d)
    ensures Blocked(m, s, d) ==> s' == s
    ensures InBounds(m, s.loc) ==> InBounds(m, s'.loc)
  {
    if InBounds(m, Target(s.loc, d)) then s.(loc := Target(s.loc, d)) else s
  }

  /** Activation switches the fountain on when the player stands in the
      Fountain room, and does nothing anywhere else. */
  function Activate(m: Layout, s: GameState): (s': GameState)
    requires m.Valid()
    ensures s'.loc == s.loc
    ensures s'.fountainOn <==> s.fountainOn || RoomAt(m, s.loc) == Fountain
  {
    if RoomAt(m, s.loc) == Fountain then s.(fountainOn := true) else s
  }

  /** Carries out one command. Every command keeps the player on the map and
      never switches the fountain off; a move never touches the flag and
      activation never moves the player. */
  function Step(m: Layout, s: GameState, c: Command): (s': GameState)
    requires m.Valid()
    ensures InBounds(m, s.loc) ==> InBounds(m, s'.loc)
    ensures s.fountainOn ==> s'.fountainOn
    ensures c.MoveCommand? ==> s'.fountainOn == s.fountainOn
    ensures c.ActivateFountainCommand? ==> s'.loc == s.loc
  {
    match c
    case MoveCommand(d) => Move(m, s, d)
    case ActivateFountainCommand => Activate(m, s)
  }

  /** The game is won in the Entrance room with the fountain on. */
  predicate HasWon(m: Layout, s: GameState)
    requires m.Valid()
  {
    RoomAt(m, s.loc) == Entrance && s.fountainOn
  }

  /** A successful move is undone by a move in the opposite direction. */
  lemma MoveThenBack(m: Layout, s: GameState, d: Direction)
    requires InBounds(m, s.loc) && !Blocked(m, s, d)
    ensures Move(m, Move(m, s, d), Opposite(d)) == s
  {
  }

  /** Activating a second time changes nothing, and once the fountain is on
      activation is a no-op. */
  lemma ActivateIdempotent(m: Layout, s: GameState)
    requires m.Valid()
    ensures Activate(m, Activate(m, s)) == Activate(m, s)
    ensures s.fountainOn ==> Activate(m, s) == s
  {
  }

  // ---------------------------------------------------------------------
  // Reading commands

  /** The exact input line that asks for each command. */
  function Token(c: Command): string
  {
    match c
    case MoveCommand(North) => "move north"
    case MoveCommand(East) => "move east"
    case MoveCommand(South) => "move south"
    case MoveCommand(West) => "move west"
    case ActivateFountainCommand => "activate fountain"
  }

  /** The command an input line asks for; `None` is a missing line. Exactly
      the five tokens are understood; anything else gives no command. */
  function Parse(input: Option<string>): (c: Option<Command>)
    ensures c.Some? ==> input == Some(Token(c.value))
    ensures forall cmd :: input == Some(Token(cmd)) ==> c == Some(cmd)
  {
    if input == Some("move north") then Some(MoveCommand(North))
    else if input == Some("move east") then Some(MoveCommand(East))
    else if input == Some("move south") then Some(MoveCommand(South))
    else if input == Some("move west") then Some(MoveCommand(West))
    else if input == Some("activate fountain") then Some(ActivateFountainCommand)
    else None
  }

  // ---------------------------------------------------------------------
  // Senses

  /** The senses, in the order the game registers them. */
  datatype Sense = EntranceSense | FountainSense

  const RegisteredSenses: seq<Sense> := [EntranceSense, FountainSense]

  predicate CanSense(sense: Sense, m: Layout, s: GameState)
    requires m.Valid()
  {
    match sense
    case EntranceSense => RoomAt(m, s.loc) == Entrance
    case FountainSense => RoomAt(m, s.loc) == Fountain
  }

  /** The report of a sense; only the fountain's depends on the state. */
  function Describe(sense: Sense, fountainOn: bool): (msg: Message)
    ensures msg == EntranceLight <==> sense == EntranceSense
    ensures sense == FountainSense ==> (msg == FountainRushing <==> fountainOn)
    ensures sense == FountainSense ==> (msg == FountainDripping <==> !fountainOn)
    ensures !msg.Position? && msg != Wall
  {
    match sense
    case EntranceSense => EntranceLight
    case FountainSense => if fountainOn then FountainRushing else FountainDripping
  }

  /** The reports of every sense in `senses` that fires, in order. */
  function Perceive(senses: seq<Sense>, m: Layout, s: GameState): (msgs: seq<Message>)
    requires m.Valid()
    ensures |msgs| <= |senses|
    ensures forall i :: 0 <= i < |senses| && CanSense(senses[i], m, s) ==> Describe(senses[i], s.fountainOn) in msgs
    ensures forall msg :: msg in msgs ==> exists i :: 0 <= i < |senses| && CanSense(senses[i], m, s) && msg == Describe(senses[i], s.fountainOn)
  {
    if senses == [] then []
    else
      var last := senses[|senses| - 1];
      var earlier := Perceive(senses[..|senses| - 1], m, s);
      if CanSense(last, m, s) then earlier + [Describe(last, s.fountainOn)] else earlier
  }

  /** A single sense reports once if it fires and not at all otherwise. */
  lemma PerceiveSingle(sense: Sense, m: Layout, s: GameState)
    requires m.Valid()
    ensures Perceive([sense], m, s) == if CanSense(sense, m, s) then [Describe(sense, s.fountainOn)] else []
  {
  }

  /** The reports of two runs of senses are those of the first run followed
      by those of the second: reports come in registration order, one per
      sense that fires. */
  lemma {:induction false} PerceiveAppend(a: seq<Sense>, b: seq<Sense>, m: Layout, s: GameState)
    requires m.Valid()
    ensures Perceive(a + b, m, s) == Perceive(a, m, s) + Perceive(b, m, s)
  {
    if b == [] {
      assert a + b == a;
    } else {
      var shorter := b[..|b| - 1];
      PerceiveAppend(a, shorter, m, s);
      assert (a + b)[..|a + b| - 1] == a + shorter;
      assert (a + b)[|a + b| - 1] == b[|b| - 1];
    }
  }

  /** The status shown before each command: the position, then the reports. */
  function Status(m: Layout, s: GameState): seq<Message>
    requires m.Valid()
  {
    [Position(s.loc)] + Perceive(RegisteredSenses, m, s)
  }

  /** The status names the position, then the entrance light in the Entrance
      room, the fountain's sound in the Fountain room, and nothing else: the
      two senses never fire together. */
  lemma StatusCases(m: Layout, s: GameState)
    requires m.Valid()
    ensures Status(m, s) ==
      [Position(s.loc)] +
      (if RoomAt(m, s.loc) == Entrance then [EntranceLight]
       else if RoomAt(m, s.loc) == Fountain then [if s.fountainOn then FountainRushing else FountainDripping]
       else [])
  {
    var first := Perceive([EntranceSense], m, s);
    assert [EntranceSense][..0] == [];
    assert first == if RoomAt(m, s.loc) == Entrance then [EntranceLight] else [];
    assert RegisteredSenses[..1] == [EntranceSense];
  }

  // ---------------------------------------------------------------------
  // Sessions

  /** One input line: ignored once the game is won or when not understood,
      otherwise the command it names is carried out. */
  function Turn(m: Layout, s: GameState, input: Option<string>): GameState
    requires m.Valid()
  {
    if HasWon(m, s) then s
    else match Parse(input)
      case None => s
      case Some(c) => Step(m, s, c)
  }

  /** The state after the input lines `inputs`, taken in order. */
  function Play(m: Layout, s: GameState, inputs: seq<Option<string>>): GameState
    requires m.Valid()
  {
    if inputs == [] then s
    else Turn(m, Play(m, s, inputs[..|inputs| - 1]), inputs[|inputs| - 1])
  }

  /** Reading one more line is one more turn. */
  lemma PlayStep(m: Layout, s: GameState, inputs: seq<Option<string>>, i: nat)
    requires m.Valid() && i < |inputs|
    ensures Play(m, s, inputs[..i + 1]) == Turn(m, Play(m, s, inputs[..i]), inputs[i])
  {
    assert inputs[..i + 1][..i] == inputs[..i];
  }

  /** Lines that are not understood leave the state as it was. */
  lemma {:induction false} PlaySkip(m: Layout, s: GameState, inputs: seq<Option<string>>, from: nat, to: nat)
    requires m.Valid() && from <= to <= |inputs|
    requires forall j :: from <= j < to ==> Parse(inputs[j]).None?
    ensures Play(m, s, inputs[..to]) == Play(m, s, inputs[..from])
  {
    if from < to {
      PlaySkip(m, s, inputs, from, to - 1);
      PlayStep(m, s, inputs, to - 1);
    }
  }

  /** Reading lines up to and including the first one understood, and
      carrying out its command, is the fold over those lines; no state in
      between is a won one. With no line understood, the state is unchanged. */
  lemma {:induction false} ReadThrough(m: Layout, s: GameState, inputs: seq<Option<string>>, from: nat, next: nat, command: Option<Command>)
    requires m.Valid() && from <= next <= |inputs|
    requires !HasWon(m, Play(m, s, inputs[..from]))
    requires command.Some? ==> from < next && Parse(inputs[next - 1]) == command
    requires forall j :: from <= j < next && (command.None? || j < next - 1) ==> Parse(inputs[j]).None?
    ensures forall k :: from <= k < next ==> !HasWon(m, Play(m, s, inputs[..k]))
    ensures Play(m, s, inputs[..next]) ==
              match command
              case None => Play(m, s, inputs[..from])
              case Some(c) => Step(m, Play(m, s, inputs[..from]), c)
  {
    var skippedTo := if command.Some? then next - 1 else next;
    forall k | from <= k <= skippedTo
      ensures Play(m, s, inputs[..k]) == Play(m, s, inputs[..from])
    {
      PlaySkip(m, s, inputs, from, k);
    }
    if command.Some? {
      PlayStep(m, s, inputs, next - 1);
    }
  }

  /** A session that starts on the map stays on the map, and once the
      fountain is on it stays on. */
  lemma {:induction false} PlayInvariants(m: Layout, s: GameState, inputs: seq<Option<string>>)
    requires m.Valid()
    ensures InBounds(m, s.loc) ==> InBounds(m, Play(m, s, inputs).loc)
    ensures s.fountainOn ==> Play(m, s, inputs).fountainOn
  {
    if inputs != [] {
      PlayInvariants(m, s, inputs[..|inputs| - 1]);
    }
  }

  /** Once won, a session stays won and later lines change nothing. */
  lemma {:induction false} PlayStopsOnceWon(m: Layout, s: GameState, inputs: seq<Option<string>>, more: seq<Option<string>>)
    requires m.Valid() && HasWon(m, Play(m, s, inputs))
    ensures Play(m, s, inputs + more) == Play(m, s, inputs)
  {
    if more == [] {
      assert inputs + more == inputs;
    } else {
      var shorter := more[..|more| - 1];
      PlayStopsOnceWon(m, s, inputs, shorter);
      assert (inputs + more)[..|inputs + more| - 1] == inputs + shorter;
    }
  }

  /** The fountain comes on only through an "activate fountain" line read
      while standing in the Fountain room. */
  lemma {:induction false} FountainNeedsActivation(m: Layout, s: GameState, inputs: seq<Option<string>>)
    requires m.Valid() && !s.fountainOn && Play(m, s, inputs).fountainOn
    ensures exists k :: 0 <= k < |inputs| && inputs[k] == Some(Token(ActivateFountainCommand)) &&
                        RoomAt(m, Play(m, s, inputs[..k]).loc) == Fountain
  {
    var n := |inputs| - 1;
    var before := Play(m, s, inputs[..n]);
    if before.fountainOn {
      FountainNeedsActivation(m, s, inputs[..n]);
      var k :| 0 <= k < n && inputs[..n][k] == Some(Token(ActivateFountainCommand)) &&
                RoomAt(m, Play(m, s, inputs[..n][..k]).loc) == Fountain;
      assert inputs[..n][..k] == inputs[..k];
    } else {
      assert Parse(inputs[n]) == Some(ActivateFountainCommand);
      assert RoomAt(m, Play(m, s, inputs[..n]).loc) == Fountain;
    }
  }
}
