/**
 * InputOutputParser.verifyInputValidity: the ordered checks on a parsed input
 * document. Absent JSON values are None. On acceptance the result carries the
 * tokens as enumerations and guarantees what the robot relies on.
 */
module Validation {
  import opened Wrappers
  import opened Tables
  import opened Grid
  import opened Simulation

  datatype StartInput = StartInput(x: Option<int>, y: Option<int>, facing: Option<string>)

  /** The parsed document: every field, row, cell and token may be null. */
  datatype Input = Input(
    battery: Option<int>,
    commands: Option<seq<Option<string>>>,
    roomMap: Option<seq<Option<seq<Cell>>>>,
    start: Option<StartInput>)

  /** The rejections, in the order the checks run. */
  datatype InvalidInput =
    | NoBattery
    | NegativeBattery(battery: int)
    | NoCommands
    | NoMap
    | NoStart
    | NoStartX
    | NoStartY
    | OutOfRoom(x: int, y: int)
    | InvalidCharacter(ch: char)
    | InvalidMap
    | UnknownFacing(facing: Option<string>)
    | UnknownCommand(command: Option<string>)
    | StartNotOnSpace(cell: Cell)
    | InvalidData

  /** The fixed leading text of each exception message, which the tests match by prefix. */
  function MessagePrefix(e: InvalidInput): string
  {
    match e
    case NoBattery => "No battery given."
    case NegativeBattery(_) => "Robot's battery can't be negative. Now it is "
    case NoCommands => "No list of commands given."
    case NoMap => "No room map given."
    case NoStart => "No robot's starting position given."
    case NoStartX => "Robot's starting X position not given."
    case NoStartY => "Robot's starting Y position not given."
    case OutOfRoom(_, _) => "Robot can't stand out of the room; now it's on "
    case InvalidCharacter(_) => " Invalid character in the map: '"
    case InvalidMap => "Invalid room map."
    case UnknownFacing(_) => "Unknown facing string: '"
    case UnknownCommand(_) => "Unknown command: '"
    case StartNotOnSpace(_) => "Starting robot's position should be on 'S' but it is standing on '"
    case InvalidData => "Invalid input data."
  }

  /** A validated input: what the robot is built from. */
  datatype Config = Config(battery: int, commands: seq<Command>, cells: CellMap, start: Pos, facing: Facing)

  /** The cell characters a map may hold: null, 'S' or 'C'. */
  predicate ValidCell(c: Cell)
  {
    c == NO_ROOM_NULL_CHAR || c == Some(SPACE_CHAR) || c == Some(COLUMN_CHAR)
  }

  /** A row that is present and holds only valid cells. */
  predicate ValidRow(row: Option<seq<Cell>>)
  {
    row.Some? && forall j :: 0 <= j < |row.value| ==> ValidCell(row.value[j])
  }

  /** The inner loop over a row: the index of its first invalid cell, if any. */
  function FirstInvalidCell(row: seq<Cell>, from: nat): (r: Option<nat>)
    requires from <= |row|
    ensures r.None? <==> forall j :: from <= j < |row| ==> ValidCell(row[j])
    ensures r.Some? ==> from <= r.value < |row| && !ValidCell(row[r.value])
                        && forall j :: from <= j < r.value ==> ValidCell(row[j])
    decreases |row| - from
  {
    if from == |row| then None
    else if !ValidCell(row[from]) then Some(from)
    else FirstInvalidCell(row, from + 1)
  }

  /** The outer loop over the map: the index of the first row that is null or holds an invalid cell. */
  function FirstInvalidRow(rows: seq<Option<seq<Cell>>>, from: nat): (r: Option<nat>)
    requires from <= |rows|
    ensures r.None? <==> forall i :: from <= i < |rows| ==> ValidRow(rows[i])
    ensures r.Some? ==> from <= r.value < |rows| && !ValidRow(rows[r.value])
                        && forall i :: from <= i < r.value ==> ValidRow(rows[i])
    decreases |rows| - from
  {
    if from == |rows| then None
    else if rows[from].None? || FirstInvalidCell(rows[from].value, 0).Some? then Some(from)
    else FirstInvalidRow(rows, from + 1)
  }

  /**
   * What the map loop throws for an invalid row: a null row fails on
   * iteration (the invalid-map catch), otherwise its first invalid character.
   */
  function RowError(row: Option<seq<Cell>>): (e: InvalidInput)
    requires !ValidRow(row)
    ensures row.None? ==> e == InvalidMap
    ensures row.Some? ==>
      && e.InvalidCharacter? && e.ch != SPACE_CHAR && e.ch != COLUMN_CHAR
      && exists j :: 0 <= j < |row.value| && row.value[j] == Some(e.ch)
                     && forall h :: 0 <= h < j ==> ValidCell(row.value[h])
  {
    if row.None? then InvalidMap
    else
      var j := FirstInvalidCell(row.value, 0).value;
      assert row.value[j].Some?;
      InvalidCharacter(row.value[j].value)
  }

  /** The loop over the commands: the index of the first token outside the command set. */
  function FirstUnknownCommand(tokens: seq<Option<string>>, from: nat): (r: Option<nat>)
    requires from <= |tokens|
    ensures r.None? <==> forall i :: from <= i < |tokens| ==> ParseCommand(tokens[i]).Some?
    ensures r.Some? ==> from <= r.value < |tokens| && ParseCommand(tokens[r.value]).None?
                        && forall i :: from <= i < r.value ==> ParseCommand(tokens[i]).Some?
    decreases |tokens| - from
  {
    if from == |tokens| then None
    else if ParseCommand(tokens[from]).None? then Some(from)
    else FirstUnknownCommand(tokens, from + 1)
  }

  /**
   * The inputs the validator accepts, stated as one conjunction. Note that the
   * start's x is bounded by the width of row 0, and separately by its own row.
   */
  ghost predicate WellFormed(input: Input)
  {
    && input.battery.Some? && input.battery.value >= 0
    && input.commands.Some?
    && input.roomMap.Some?
    && input.start.Some? && input.start.value.x.Some? && input.start.value.y.Some?
    && var rows, x, y := input.roomMap.value, input.start.value.x.value, input.start.value.y.value;
       && 0 <= y < |rows| && 0 <= x
       && rows[0].Some? && x < |rows[0].value|
       && (forall i :: 0 <= i < |rows| ==> ValidRow(rows[i]))
       && ParseFacing(input.start.value.facing).Some?
       && (forall i :: 0 <= i < |input.commands.value| ==> ParseCommand(input.commands.value[i]).Some?)
       && x < |rows[y].value| && rows[y].value[x] == Some(SPACE_CHAR)
  }

  /** verifyInputValidity: the checks in source order; the first that fails decides the error. */
  function Validate(input: Input): (r: Result<Config, InvalidInput>)
    ensures r.Success? <==> WellFormed(input)
    ensures r.Success? ==>
      && r.value.battery == input.battery.value >= 0
      && r.value.start == Pos(input.start.value.x.value, input.start.value.y.value)
      && Some(FacingToken(r.value.facing)) == input.start.value.facing
      && |r.value.commands| == |input.commands.value|
      && (forall i :: 0 <= i < |r.value.commands| ==> Some(CommandToken(r.value.commands[i])) == input.commands.value[i])
      && |r.value.cells| == |input.roomMap.value|
      && (forall i :: 0 <= i < |r.value.cells| ==> Some(r.value.cells[i]) == input.roomMap.value[i])
      && !IsObstacle(r.value.cells, r.value.start)
  {
    if input.battery.None? then Failure(NoBattery)
    else if input.battery.value < 0 then Failure(NegativeBattery(input.battery.value))
    else if input.commands.None? then Failure(NoCommands)
    else if input.roomMap.None? then Failure(NoMap)
    else if input.start.None? then Failure(NoStart)
    else if input.start.value.x.None? then Failure(NoStartX)
    else if input.start.value.y.None? then Failure(NoStartY)
    else
      var rows, x, y := input.roomMap.value, input.start.value.x.value, input.start.value.y.value;
      var tokens := input.commands.value;
      if y < 0 || y >= |rows| || x < 0 then Failure(OutOfRoom(x, y))
      // a null row 0 throws while its width is read: the generic catch
      else if rows[0].None? then Failure(InvalidData)
      else if x >= |rows[0].value| then Failure(OutOfRoom(x, y))
      else match FirstInvalidRow(rows, 0)
        case Some(i) => Failure(RowError(rows[i]))
        case None =>
          match ParseFacing(input.start.value.facing)
          case None => Failure(UnknownFacing(input.start.value.facing))
          case Some(facing) =>
            match FirstUnknownCommand(tokens, 0)
            case Some(i) => Failure(UnknownCommand(tokens[i]))
            case None =>
              // a start row shorter than x throws on indexing: the generic catch
              if x >= |rows[y].value| then Failure(InvalidData)
              else if rows[y].value[x] != Some(SPACE_CHAR) then Failure(StartNotOnSpace(rows[y].value[x]))
              else
                var cells := seq(|rows|, i requires 0 <= i < |rows| => rows[i].value);
                var commands := seq(|tokens|, i requires 0 <= i < |tokens| => ParseCommand(tokens[i]).value);
                Success(Config(input.battery.value, commands, cells, Pos(x, y), facing))
  }

  /**
   * getInput hands the parsed document to verifyInputValidity unchecked; a
   * document that is JSON null makes the first getter throw, which the
   * generic catch turns into "Invalid input data.".
   */
  function ValidateDocument(doc: Option<Input>): (r: Result<Config, InvalidInput>)
    ensures r.Success? <==> doc.Some? && WellFormed(doc.value)
    ensures doc.None? ==> r == Failure(InvalidData) && MessagePrefix(r.error) == "Invalid input data."
    ensures doc.Some? ==> r == Validate(doc.value)
  {
    if doc.None? then Failure(InvalidData) else Validate(doc.value)
  }

  /** The number of checks, counting each way a check can throw separately. */
  const CHECK_COUNT: nat := 16

  /** The message prefix check k raises, in the order the checks run. */
  function CheckMessage(k: nat): string
    requires k < CHECK_COUNT
  {
    match k
    case 0 => MessagePrefix(NoBattery)
    case 1 => MessagePrefix(NegativeBattery(0))
    case 2 => MessagePrefix(NoCommands)
    case 3 => MessagePrefix(NoMap)
    case 4 => MessagePrefix(NoStart)
    case 5 => MessagePrefix(NoStartX)
    case 6 => MessagePrefix(NoStartY)
    case 7 => MessagePrefix(OutOfRoom(0, 0))
    case 8 => MessagePrefix(InvalidData)
    case 9 => MessagePrefix(OutOfRoom(0, 0))
    case 10 => MessagePrefix(InvalidMap)
    case 11 => MessagePrefix(InvalidCharacter('?'))
    case 12 => MessagePrefix(UnknownFacing(None))
    case 13 => MessagePrefix(UnknownCommand(None))
    case 14 => MessagePrefix(InvalidData)
    case _ => MessagePrefix(StartNotOnSpace(None))
  }

  /** All fields the start-position checks read are present. */
  ghost predicate Placed(input: Input)
  {
    input.roomMap.Some? && input.start.Some? && input.start.value.x.Some? && input.start.value.y.Some?
  }

  /** The start row is a row of the map. */
  ghost predicate RowInMap(input: Input)
  {
    Placed(input) && 0 <= input.start.value.y.value < |input.roomMap.value|
  }

  /**
   * Check k rejects the input, judged on its own: each check reads only the
   * fields it needs, and none of them depends on the order of the others.
   */
  ghost predicate Fails(input: Input, k: nat)
  {
    if k == 0 then input.battery.None?
    else if k == 1 then input.battery.Some? && input.battery.value < 0
    else if k == 2 then input.commands.None?
    else if k == 3 then input.roomMap.None?
    else if k == 4 then input.start.None?
    else if k == 5 then input.start.Some? && input.start.value.x.None?
    else if k == 6 then input.start.Some? && input.start.value.y.None?
    else if k == 7 then Placed(input) && (!RowInMap(input) || input.start.value.x.value < 0)
    else if k == 8 then RowInMap(input) && input.roomMap.value[0].None?
    else if k == 9 then
      RowInMap(input) && input.roomMap.value[0].Some?
      && input.start.value.x.value >= |input.roomMap.value[0].value|
    else if k == 10 then
      // the first row that is not valid is null
      input.roomMap.Some? && exists i :: 0 <= i < |input.roomMap.value| && input.roomMap.value[i].None?
                                         && forall h :: 0 <= h < i ==> ValidRow(input.roomMap.value[h])
    else if k == 11 then
      // the first row that is not valid holds a character other than null, 'S' or 'C'
      input.roomMap.Some? && exists i :: 0 <= i < |input.roomMap.value| && input.roomMap.value[i].Some?
                                         && !ValidRow(input.roomMap.value[i])
                                         && forall h :: 0 <= h < i ==> ValidRow(input.roomMap.value[h])
    else if k == 12 then input.start.Some? && ParseFacing(input.start.value.facing).None?
    else if k == 13 then
      input.commands.Some? && exists i :: 0 <= i < |input.commands.value| && ParseCommand(input.commands.value[i]).None?
    else if k == 14 then
      RowInMap(input) && var row := input.roomMap.value[input.start.value.y.value];
      row.Some? && input.start.value.x.value >= |row.value|
    else if k == 15 then
      RowInMap(input) && var row := input.roomMap.value[input.start.value.y.value];
      row.Some? && 0 <= input.start.value.x.value < |row.value|
      && row.value[input.start.value.x.value] != Some(SPACE_CHAR)
    else false
  }

  /** Every check before check k passes. */
  ghost predicate Passes(input: Input, k: nat)
  {
    forall j :: 0 <= j < k ==> !Fails(input, j)
  }

  /**
   * The checks run in a fixed order: when check k is the first to fail, the
   * input is rejected with check k's message.
   */
  lemma FirstFailingCheckDecides(input: Input, k: nat)
    requires k < CHECK_COUNT
    requires Fails(input, k) && Passes(input, k)
    ensures Validate(input).Failure? && MessagePrefix(Validate(input).error) == CheckMessage(k)
  {
    if k < 7 {
      PresenceChecks(input, k);
    } else if k < 10 {
      BoundsChecks(input, k);
    } else {
      ContentChecks(input, k);
    }
  }

  /** Checks 0 to 6: the given fields and the sign of the battery. */
  lemma PresenceChecks(input: Input, k: nat)
    requires k < 7
    requires Fails(input, k) && Passes(input, k)
    ensures Validate(input).Failure? && MessagePrefix(Validate(input).error) == CheckMessage(k)
  {
    if k == 0 {
      RejectsNoBattery(input);
    } else if k == 1 {
      RejectsNegativeBattery(input);
    } else if k == 2 {
      RejectsNoCommands(input);
    } else if k == 3 {
      RejectsNoMap(input);
    } else if k == 4 {
      RejectsNoStart(input);
    } else if k == 5 {
      RejectsNoStartX(input);
    } else {
      RejectsNoStartY(input);
    }
  }

  /** Checks 7 to 9: the start against the map's rows and row 0. */
  lemma BoundsChecks(input: Input, k: nat)
    requires 7 <= k < 10
    requires Fails(input, k) && Passes(input, k)
    ensures Validate(input).Failure? && MessagePrefix(Validate(input).error) == CheckMessage(k)
  {
    if k == 7 {
      RejectsStartOutsideMap(input);
    } else if k == 8 {
      RejectsNullFirstRow(input);
    } else {
      RejectsStartBeyondFirstRow(input);
    }
  }

  /** Checks 10 to 15: map cells, facing, commands and the start cell. */
  lemma ContentChecks(input: Input, k: nat)
    requires 10 <= k < CHECK_COUNT
    requires Fails(input, k) && Passes(input, k)
    ensures Validate(input).Failure? && MessagePrefix(Validate(input).error) == CheckMessage(k)
  {
    if k == 10 {
      RejectsNullRow(input);
    } else if k == 11 {
      RejectsInvalidCharacter(input);
    } else if k == 12 {
      RejectsUnknownFacing(input);
    } else {
      StartChecks(input, k);
    }
  }

  /** Checks 13 to 15. */
  lemma StartChecks(input: Input, k: nat)
    requires 13 <= k < CHECK_COUNT
    requires Fails(input, k) && Passes(input, k)
    ensures Validate(input).Failure? && MessagePrefix(Validate(input).error) == CheckMessage(k)
  {
    if k == 13 {
      RejectsUnknownCommand(input);
    } else if k == 14 {
      RejectsShortStartRow(input);
    } else {
      RejectsStartNotOnSpace(input);
    }
  }

  /** A missing battery is the first thing rejected. */
  lemma RejectsNoBattery(input: Input)
    requires Fails(input, 0) && Passes(input, 0)
    ensures Validate(input) == Failure(NoBattery)
  {
  }

  /** A negative battery is rejected, with its value in the message. */
  lemma RejectsNegativeBattery(input: Input)
    requires Fails(input, 1) && Passes(input, 1)
    ensures Validate(input) == Failure(NegativeBattery(input.battery.value))
  {
    assert !Fails(input, 0);
  }

  /** A missing command list is rejected once the battery passes. */
  lemma RejectsNoCommands(input: Input)
    requires Fails(input, 2) && Passes(input, 2)
    ensures Validate(input) == Failure(NoCommands)
  {
    assert !Fails(input, 0) && !Fails(input, 1);
  }

  /** A missing map is rejected once battery and commands pass. */
  lemma RejectsNoMap(input: Input)
    requires Fails(input, 3) && Passes(input, 3)
    ensures Validate(input) == Failure(NoMap)
  {
    assert !Fails(input, 0) && !Fails(input, 1) && !Fails(input, 2);
  }

  /** A missing start is rejected once battery, commands and map pass. */
  lemma RejectsNoStart(input: Input)
    requires Fails(input, 4) && Passes(input, 4)
    ensures Validate(input) == Failure(NoStart)
  {
    assert !Fails(input, 0) && !Fails(input, 1) && !Fails(input, 2) && !Fails(input, 3);
  }

  /** A start without x is rejected. */
  lemma RejectsNoStartX(input: Input)
    requires Fails(input, 5) && Passes(input, 5)
    ensures Validate(input) == Failure(NoStartX)
  {
    assert !Fails(input, 0) && !Fails(input, 1) && !Fails(input, 2) && !Fails(input, 3);
    assert !Fails(input, 4);
  }

  /** A start without y is rejected once x is given. */
  lemma RejectsNoStartY(input: Input)
    requires Fails(input, 6) && Passes(input, 6)
    ensures Validate(input) == Failure(NoStartY)
  {
    assert !Fails(input, 0) && !Fails(input, 1) && !Fails(input, 2) && !Fails(input, 3);
    assert !Fails(input, 4) && !Fails(input, 5);
  }

  /** A start row outside the map, or a negative x, is out of the room. */
  lemma RejectsStartOutsideMap(input: Input)
    requires Fails(input, 7) && Passes(input, 7)
    ensures Validate(input) == Failure(OutOfRoom(input.start.value.x.value, input.start.value.y.value))
  {
    assert !Fails(input, 0) && !Fails(input, 1) && !Fails(input, 2) && !Fails(input, 3);
    assert !Fails(input, 4) && !Fails(input, 5) && !Fails(input, 6);
  }

  /** A null row 0 throws while its width is read: the generic message. */
  lemma RejectsNullFirstRow(input: Input)
    requires Fails(input, 8) && Passes(input, 8)
    ensures Validate(input) == Failure(InvalidData)
  {
    assert !Fails(input, 0) && !Fails(input, 1) && !Fails(input, 2) && !Fails(input, 3);
    assert !Fails(input, 4) && !Fails(input, 5) && !Fails(input, 6) && !Fails(input, 7);
  }

  /** An x at or beyond the width of row 0 is out of the room. */
  lemma RejectsStartBeyondFirstRow(input: Input)
    requires Fails(input, 9) && Passes(input, 9)
    ensures Validate(input) == Failure(OutOfRoom(input.start.value.x.value, input.start.value.y.value))
  {
    assert !Fails(input, 0) && !Fails(input, 1) && !Fails(input, 2) && !Fails(input, 3);
    assert !Fails(input, 4) && !Fails(input, 5) && !Fails(input, 6) && !Fails(input, 7);
    assert !Fails(input, 8);
  }

  /** Checks 0 to 9 all pass: the map loop is reached. */
  lemma EarlyChecksPass(input: Input)
    requires Passes(input, 10)
    ensures input.battery.Some? && input.battery.value >= 0 && input.commands.Some? && RowInMap(input)
    ensures var rows, x := input.roomMap.value, input.start.value.x.value;
            rows[0].Some? && 0 <= x < |rows[0].value|
  {
    assert !Fails(input, 0) && !Fails(input, 1) && !Fails(input, 2) && !Fails(input, 3);
    assert !Fails(input, 4) && !Fails(input, 5) && !Fails(input, 6) && !Fails(input, 7);
    assert !Fails(input, 8) && !Fails(input, 9);
  }

  /** Checks 0 to 11 all pass: the map loop finds no invalid row. */
  lemma MapChecksPass(input: Input)
    requires Passes(input, 12)
    ensures input.roomMap.Some? && FirstInvalidRow(input.roomMap.value, 0).None?
  {
    assert Passes(input, 10);
    EarlyChecksPass(input);
    var rows := input.roomMap.value;
    BadRowFails(input);
  }

  /** A first bad row makes check 10 or check 11 fail. */
  lemma BadRowFails(input: Input)
    requires input.roomMap.Some?
    ensures FirstInvalidRow(input.roomMap.value, 0).Some? ==> Fails(input, 10) || Fails(input, 11)
  {
    var rows := input.roomMap.value;
    var m := FirstInvalidRow(rows, 0);
    if m.Some? {
      if rows[m.value].None? {
        assert Fails(input, 10);
      } else {
        assert Fails(input, 11);
      }
    }
  }

  /** The map loop reaches a null row before any invalid character: the invalid-map message. */
  lemma RejectsNullRow(input: Input)
    requires Fails(input, 10) && Passes(input, 10)
    ensures Validate(input) == Failure(InvalidMap)
  {
    EarlyChecksPass(input);
    var rows := input.roomMap.value;
    var i :| 0 <= i < |rows| && rows[i].None? && forall h :: 0 <= h < i ==> ValidRow(rows[h]);
    assert FirstInvalidRow(rows, 0) == Some(i);
  }

  /** The map loop reaches a character other than null, S or C first. */
  lemma RejectsInvalidCharacter(input: Input)
    requires Fails(input, 11) && Passes(input, 11)
    ensures input.roomMap.Some? && FirstInvalidRow(input.roomMap.value, 0).Some?
    ensures var rows := input.roomMap.value;
            Validate(input) == Failure(RowError(rows[FirstInvalidRow(rows, 0).value]))
    ensures Validate(input).error.InvalidCharacter?
  {
    assert Passes(input, 10);
    EarlyChecksPass(input);
    var rows := input.roomMap.value;
    var i :| 0 <= i < |rows| && rows[i].Some? && !ValidRow(rows[i]) && forall h :: 0 <= h < i ==> ValidRow(rows[h]);
    assert FirstInvalidRow(rows, 0) == Some(i);
  }

  /** A facing other than N, E, S, W is rejected after the map passes. */
  lemma RejectsUnknownFacing(input: Input)
    requires Fails(input, 12) && Passes(input, 12)
    ensures Validate(input) == Failure(UnknownFacing(input.start.value.facing))
  {
    assert Passes(input, 10);
    EarlyChecksPass(input);
    MapChecksPass(input);
  }

  /** A token outside C, TR, TL, A, B is rejected after the facing passes. */
  lemma RejectsUnknownCommand(input: Input)
    requires Fails(input, 13) && Passes(input, 13)
    ensures input.commands.Some? && FirstUnknownCommand(input.commands.value, 0).Some?
    ensures var tokens := input.commands.value;
            Validate(input) == Failure(UnknownCommand(tokens[FirstUnknownCommand(tokens, 0).value]))
  {
    assert Passes(input, 10) && Passes(input, 12) && !Fails(input, 12);
    EarlyChecksPass(input);
    MapChecksPass(input);
  }

  /** Checks 0 to 13 all pass: the start cell is the only thing left to check. */
  lemma TokenChecksPass(input: Input)
    requires Passes(input, 14)
    ensures MapChecksPassed(input)
  {
    assert Passes(input, 12) && !Fails(input, 12) && !Fails(input, 13);
    MapChecksPass(input);
    EarlyChecksPass(input);
    if FirstUnknownCommand(input.commands.value, 0).Some? {
      assert Fails(input, 13);
    }
  }

  /** Everything the validator checks before the start cell holds. */
  ghost predicate MapChecksPassed(input: Input)
  {
    && input.battery.Some? && input.battery.value >= 0 && RowInMap(input)
    && input.commands.Some? && FirstUnknownCommand(input.commands.value, 0).None?
    && var rows, x := input.roomMap.value, input.start.value.x.value;
       && rows[0].Some? && 0 <= x < |rows[0].value|
       && FirstInvalidRow(rows, 0).None?
       && ParseFacing(input.start.value.facing).Some?
  }

  /** A start row shorter than x throws on indexing: the generic message. */
  lemma RejectsShortStartRow(input: Input)
    requires Fails(input, 14) && Passes(input, 14)
    ensures Validate(input) == Failure(InvalidData)
  {
    TokenChecksPass(input);
  }

  /** A start cell that is not S is rejected last. */
  lemma RejectsStartNotOnSpace(input: Input)
    requires Fails(input, 15) && Passes(input, 15)
    ensures RowInMap(input) && input.roomMap.value[input.start.value.y.value].Some?
    ensures var row, x := input.roomMap.value[input.start.value.y.value].value, input.start.value.x.value;
            0 <= x < |row| && Validate(input) == Failure(StartNotOnSpace(row[x]))
  {
    assert Passes(input, 14);
    TokenChecksPass(input);
  }

  /** When no check fails the input is accepted, and an accepted input fails no check. */
  lemma NoFailingCheckAccepts(input: Input)
    ensures Passes(input, CHECK_COUNT) <==> Validate(input).Success?
  {
    if Passes(input, CHECK_COUNT) {
      assert Passes(input, 14) && !Fails(input, 14) && !Fails(input, 15);
      TokenChecksPass(input);
      assert WellFormed(input);
    }
    if Validate(input).Success? {
      forall j | 0 <= j < CHECK_COUNT
        ensures !Fails(input, j)
      {
        if Fails(input, j) {
          FirstFailure(input, j);
        }
      }
    }
  }

  /** Some check at or below a failing one is the first to fail, and then the input is rejected. */
  lemma {:induction false} FirstFailure(input: Input, k: nat)
    requires k < CHECK_COUNT && Fails(input, k)
    ensures Validate(input).Failure?
  {
    if Passes(input, k) {
      FirstFailingCheckDecides(input, k);
    } else {
      var j :| 0 <= j < k && Fails(input, j);
      FirstFailure(input, j);
    }
  }

  /** The state a robot built from a validated input starts in. */
  function Initial(cfg: Config): State
  {
    State(cfg.start, cfg.facing, cfg.battery, {}, {})
  }

  /**
   * Validation establishes what the run relies on: for every accepted input
   * the run ends with a non-negative battery no larger than the initial one,
   * the start visited, cleaned cells visited, and only floor cells visited.
   */
  lemma ValidatedRunIsConsistent(input: Input)
    requires Validate(input).Success?
    ensures var cfg := Validate(input).value;
            var f := Work(cfg.cells, Initial(cfg), cfg.commands);
            && Consistent(cfg.cells, f.st)
            && cfg.start in f.st.visited
            && 0 <= f.st.battery <= cfg.battery
  {
  }
}
