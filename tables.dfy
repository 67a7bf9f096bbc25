/**
 * The fixed tables of Robot.java: command tokens, facing tokens, the ordered
 * direction list used for turning, the energy costs and the backoff strategies.
 */
module Tables {
  import opened Wrappers

  /** The five commands of a script ("C", "TR", "TL", "A", "B"). */
  datatype Command = Clean | TurnRight | TurnLeft | Advance | Back

  /** The four facings ("N", "E", "S", "W"). */
  datatype Facing = North | East | South | West

  const TURN_CONSUMPTION: nat := 1
  const GO_ADVANCE_CONSUMPTION: nat := 2
  const GO_BACK_CONSUMPTION: nat := 3
  const CLEAN_CONSUMPTION: nat := 5

  const TURN_RIGHT: int := 1
  const TURN_LEFT: int := -1
  const GO_AHEAD: int := 1
  const GO_BACK: int := -1

  /** The recovery sequences, tried in this order when a move is blocked. */
  const BACKOFF_STRATEGIES: seq<seq<Command>> := [
    [TurnRight, Advance, TurnLeft],
    [TurnRight, Advance, TurnRight],
    [TurnRight, Advance, TurnRight],
    [TurnRight, Back, TurnRight, Advance],
    [TurnLeft, TurnLeft, Advance]
  ]

  /** The token a script uses for each command. */
  function CommandToken(c: Command): string
  {
    match c
    case Clean => "C"
    case TurnRight => "TR"
    case TurnLeft => "TL"
    case Advance => "A"
    case Back => "B"
  }

  /** Membership in the source's command set; a null token is no command. */
  function ParseCommand(token: Option<string>): (r: Option<Command>)
    ensures r.Some? ==> token == Some(CommandToken(r.value))
    ensures r.None? ==> forall c: Command :: token != Some(CommandToken(c))
  {
    match token
    case None => None
    case Some(s) =>
      if s == "C" then Some(Clean)
      else if s == "TR" then Some(TurnRight)
      else if s == "TL" then Some(TurnLeft)
      else if s == "A" then Some(Advance)
      else if s == "B" then Some(Back)
      else None
  }

  lemma {:induction false} ParseCommandToken(c: Command)
    ensures ParseCommand(Some(CommandToken(c))) == Some(c)
  {
    match c
    case Clean =>
    case TurnRight =>
    case TurnLeft =>
    case Advance =>
    case Back =>
  }

  /** The ordered direction list over which turns move by one step. */
  const DIRECTION: seq<Facing> := [North, East, South, West]

  function FacingToken(f: Facing): string
  {
    match f
    case North => "N"
    case East => "E"
    case South => "S"
    case West => "W"
  }

  /** The source's direction-map lookup; unknown and null tokens give None. */
  function ParseFacing(token: Option<string>): (r: Option<Facing>)
    ensures r.Some? ==> token == Some(FacingToken(r.value))
    ensures r.None? ==> forall f: Facing :: token != Some(FacingToken(f))
  {
    match token
    case None => None
    case Some(s) =>
      if s == "N" then Some(North)
      else if s == "E" then Some(East)
      else if s == "S" then Some(South)
      else if s == "W" then Some(West)
      else None
  }

  /** Position of a facing in DIRECTION. */
  function Index(f: Facing): (i: nat)
    ensures i < |DIRECTION| && DIRECTION[i] == f
  {
    match f
    case North => 0
    case East => 1
    case South => 2
    case West => 3
  }

  /** Reference table: a right turn goes clockwise. */
  function Clockwise(f: Facing): Facing
  {
    match f
    case North => East
    case East => South
    case South => West
    case West => North
  }

  /** Reference table: a left turn goes anticlockwise. */
  function Anticlockwise(f: Facing): Facing
  {
    match f
    case North => West
    case West => South
    case South => East
    case East => North
  }

  /**
   * The facing after a turn: the index moves by the turn modulo the table
   * size. The turn is +1 or -1, so the dividend is never negative and Java's
   * remainder agrees with Dafny's.
   */
  function Turned(f: Facing, turn: int): (r: Facing)
    requires turn == TURN_RIGHT || turn == TURN_LEFT
    ensures r == if turn == TURN_RIGHT then Clockwise(f) else Anticlockwise(f)
  {
    DIRECTION[(Index(f) + |DIRECTION| + turn) % |DIRECTION|]
  }

  lemma TurnsUndo(f: Facing)
    ensures Turned(Turned(f, TURN_RIGHT), TURN_LEFT) == f
    ensures Turned(Turned(f, TURN_LEFT), TURN_RIGHT) == f
  {
  }

  lemma FourTurnsRestore(f: Facing)
    ensures Turned(Turned(Turned(Turned(f, TURN_RIGHT), TURN_RIGHT), TURN_RIGHT), TURN_RIGHT) == f
    ensures Turned(Turned(Turned(Turned(f, TURN_LEFT), TURN_LEFT), TURN_LEFT), TURN_LEFT) == f
  {
  }
}
