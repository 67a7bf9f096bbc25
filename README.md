# Cleaning robot: a verified model

This project models the engine of a cleaning robot that moves over a room
map. The robot reads a script of commands:
- `C` cleans the current cell;
- `TR` and `TL` turn right and left;
- `A` advances and `B` goes back.

Each command is paid for from a battery before it acts. A move into an
obstacle still costs energy and fails. The robot then tries a fixed table of
five backoff strategies in order. Running out of energy ends the run, and
the report gives:
- the cells visited;
- the cells cleaned;
- the final position and facing;
- the battery left.

A validator checks the parsed input before a robot is built. It runs its
checks in a fixed order, and the first check that fails decides the error.

Modules:

- `Wrappers`: `Option` and `Result`.
- `Tables`: the fixed tables of `Robot.java`:
  - the commands and their tokens;
  - the facings and their tokens;
  - the ordered direction list, where a turn is an index step modulo 4;
  - the energy costs;
  - the backoff strategies.
- `Grid`: `Room.java`:
  - the obstacle test over the map, with bounds checked against each row's own length;
  - the class `Room`, whose visited and cleaned sets grow in place.
- `Simulation`: the reference semantics of `Robot.java` as pure functions over a
  `State` (position, facing, battery, visited, cleaned):
  - one command, one strategy, the strategy table and the whole run;
  - the properties of these functions as lemmas.

  `Outcome.LowBattery` stands for the low-battery exception.
- `Robots`: the class `Robot`. Its position, facing and battery are fields
  that its methods update. Each method is proved to leave exactly the state
  that the matching `Simulation` function computes. The loops of `work` and
  `triggerBackOffStrategy` carry that correspondence as loop invariants.
- `Validation`: `InputOutputParser.verifyInputValidity`:
  - over an `Input` whose fields, rows, cells and tokens may each be null (`None`);
  - `ValidateDocument` adds the case where the whole document is null;
  - `Validate` gives a `Config` or the error that the first failing check throws;
  - `Fails(input, k)` states each of the 16 checks on its own;
  - the lemmas tie that check list to `Validate`.

The blocked advance that triggers a backoff is paid for too (`Robot.java`
lines 147-148): in `Simulation.ScenarioFirstStrategy` the run spends 2 on the
blocked advance and 4 on the first strategy, 6 in all.

A failed strategy is never rolled back. `Simulation.FailedStrategyKeepsPrefix`
shows that a strategy that stops keeps everything its earlier commands did.
`Simulation.AttemptsFailInOrder` shows that each next strategy starts from
the exact state the failed one left. `Simulation.ScenarioStrategyFourKeepsBackMove`
shows the fourth strategy: its back move works, its advance is blocked, and
the robot stays where the back move took it.

## Model

| member | source | states |
|---|---|---|
| Tables.ParseCommand | src/main/java/com/myq/interview/cleaner/Robot.java:64-70 | a token is accepted exactly when it is the token of some command, and then it is that command's token; a null token is no command |
| Tables.ParseCommandToken | src/main/java/com/myq/interview/cleaner/Robot.java:64-70 | every command's token parses back to that command |
| Tables.ParseFacing | src/main/java/com/myq/interview/cleaner/Robot.java:178-189 | a facing token is accepted exactly when it is one of N, E, S, W (the direction-map lookup); null gives none |
| Tables.Index | src/main/java/com/myq/interview/cleaner/Robot.java:182-189 | the direction map sends each facing to its position in the direction list |
| Tables.Turned | src/main/java/com/myq/interview/cleaner/Robot.java:195-200 | stepping the direction index by +1 or -1 modulo 4 is a clockwise (right) or anticlockwise (left) quarter turn |
| Tables.TurnsUndo | src/main/java/com/myq/interview/cleaner/Robot.java:195-200 | a left turn undoes a right turn and vice versa |
| Tables.FourTurnsRestore | src/main/java/com/myq/interview/cleaner/Robot.java:195-200 | four right turns, or four left turns, restore the facing |
| Grid.IsObstacle | src/main/java/com/myq/interview/cleaner/Room.java:30-39 | negative coordinates, a row past the map, or x past the length of its own row are obstacles; a position is free exactly when it is in bounds and its cell is 'S' |
| Grid.JaggedRows | src/main/java/com/myq/interview/cleaner/Room.java:34-35 | bounds are per row: the same x is a wall past a short row and floor in a longer one |
| Grid.ColumnAndNullAreObstacles | src/main/java/com/myq/interview/cleaner/Room.java:21-23 | an in-bounds 'C' or null cell is an obstacle |
| Grid.Room.constructor | src/main/java/com/myq/interview/cleaner/Room.java:15-19 | the room keeps the map and starts with empty visited and cleaned sets |
| Grid.Room.MarkVisited | src/main/java/com/myq/interview/cleaner/Room.java:41-43 | visited becomes the old set plus the position, so marking twice is marking once; cleaned is unchanged |
| Grid.Room.MarkCleaned | src/main/java/com/myq/interview/cleaner/Room.java:45-47 | cleaned becomes the old set plus the position; visited is unchanged |
| Grid.Room.GetVisited | src/main/java/com/myq/interview/cleaner/Room.java:49-51 | returns the current visited set and changes nothing |
| Grid.Room.GetCleaned | src/main/java/com/myq/interview/cleaner/Room.java:53-55 | returns the current cleaned set and changes nothing |
| Simulation.NextPosition | src/main/java/com/myq/interview/cleaner/Robot.java:208-220 | the next cell is the position plus front times the facing's unit step (N (0,-1), E (1,0), S (0,1), W (-1,0)) |
| Simulation.AdvanceThenBackReturns | src/main/java/com/myq/interview/cleaner/Robot.java:208-220 | the cell behind the cell in front is the start cell, and the cell in front is never the start cell |
| Simulation.AdvanceThenBack | src/main/java/com/myq/interview/cleaner/Robot.java:147-176 | a back move right after an advance that worked returns to the cell the robot came from, costs 3 and changes nothing else, since that cell is visited already |
| Simulation.Consume | src/main/java/com/myq/interview/cleaner/Robot.java:102-110 | low battery is raised exactly when the battery is below the cost, and then nothing changes; otherwise exactly the cost is deducted and the battery stays non-negative |
| Simulation.CleanHere | src/main/java/com/myq/interview/cleaner/Robot.java:91-95 | low battery when below 5, with nothing changed; otherwise 5 is paid and the current cell is added to cleaned, nothing else changes |
| Simulation.Turn | src/main/java/com/myq/interview/cleaner/Robot.java:191-197 | low battery when below 1, with nothing changed; otherwise 1 is paid and the facing becomes its clockwise (right) or anticlockwise (left) neighbour, nothing else changes |
| Simulation.Move | src/main/java/com/myq/interview/cleaner/Robot.java:147-159 | low battery when below the cost, with nothing changed; otherwise the cost is paid whether or not the move is blocked, the move works exactly when the next cell is not an obstacle, a blocked move changes only the battery, and a move that works goes to the next cell and adds it to visited |
| Simulation.RunCommand | src/main/java/com/myq/interview/cleaner/Robot.java:72-95 | the cost (turn 1, advance 2, back 3, clean 5) is checked first and then paid in full. Only a move can fail, and a failed move changes only the battery. A successful move goes to the neighbour (N: y-f, E: x+f, S: y+f, W: x-f) and records it visited. A turn changes only the facing and battery, clean only the cleaned set and battery. Sets never shrink, and the reachable-state invariant (battery >= 0, position visited, cleaned within visited, visited cells free) is kept |
| Simulation.RunStrategy | src/main/java/com/myq/interview/cleaner/Robot.java:125-130 | a strategy that works has spent exactly the sum of its costs; a low-battery stop reports the remaining energy, which is below that command's cost and below 5; sets only grow and the invariant holds (that effects before a stop are kept is FailedStrategyKeepsPrefix) |
| Simulation.TryStrategies | src/main/java/com/myq/interview/cleaner/Robot.java:118-137 | any low battery is below 5; sets only grow and the invariant is kept (the order of the strategies and their start states are AttemptsFailInOrder, AttemptsEndFailed and AttemptsEndStopped) |
| Simulation.BackOff | src/main/java/com/myq/interview/cleaner/Robot.java:118-137 | the table from its first strategy: any low battery is below 5, sets only grow and the invariant is kept; how much a backoff that works or fails spends is in WorkedBackOffSpends and FailedBackOffSpends |
| Simulation.FailedStrategyKeepsPrefix | src/main/java/com/myq/interview/cleaner/Robot.java:125-130 | a strategy that stops is exactly the prefix of its commands that worked followed by the command that stopped it, run from the state that prefix left: turns, moves and visited cells before the stop are kept |
| Simulation.AttemptsFailInOrder | src/main/java/com/myq/interview/cleaner/Robot.java:122-135 | the strategies from k on run in table order, each failed one followed by the next from exactly the state it left: no failed strategy is rolled back |
| Simulation.AttemptsEndFailed | src/main/java/com/myq/interview/cleaner/Robot.java:122-137 | a backoff that returns false has tried every strategy and ends in the state the last one left |
| Simulation.AttemptsEndStopped | src/main/java/com/myq/interview/cleaner/Robot.java:122-137 | a backoff that returns true or runs out of energy gives the run of the strategy that stopped it, from the state the failed strategies before it left |
| Simulation.FailedStrategySpends | src/main/java/com/myq/interview/cleaner/Robot.java:125-130 | a failed strategy has paid for every command up to and including its first move |
| Simulation.FailedStrategiesSpend | src/main/java/com/myq/interview/cleaner/Robot.java:122-135 | when every strategy from k on fails, each one's spending up to its blocked move stays spent |
| Simulation.TableFailFloor | src/main/java/com/myq/interview/cleaner/Robot.java:21-27 | the five strategies spend at least 3, 3, 3, 4 and 4 before they can fail, 17 in all |
| Simulation.FailedBackOffSpends | src/main/java/com/myq/interview/cleaner/Robot.java:118-137 | a backoff that returns false has spent at least 17, the least the five strategies can spend before each fails |
| Simulation.TableLeastCost | src/main/java/com/myq/interview/cleaner/Robot.java:21-27 | every strategy costs at least 4 when it runs to the end |
| Simulation.WorkedBackOffSpends | src/main/java/com/myq/interview/cleaner/Robot.java:118-137 | a backoff that returns true has run some whole strategy: it spent at least 4 |
| Simulation.Exec | src/main/java/com/myq/interview/cleaner/Robot.java:44-57 | a run that ends on low battery has less than 5 left; sets only grow, the battery never rises, and the invariant is kept |
| Simulation.Work | src/main/java/com/myq/interview/cleaner/Robot.java:41-62 | the start is visited whatever happens; the battery is at most the initial one; from a free start every visited cell is free and every cleaned cell was visited |
| Simulation.ExecHaltIsFinal | src/main/java/com/myq/interview/cleaner/Robot.java:47-57 | once a run is stuck (backoff failed) or out of energy, no later command of the script runs |
| Simulation.ExecCompletedChains | src/main/java/com/myq/interview/cleaner/Robot.java:45-54 | a script that completes is continued from the state it reached |
| Simulation.FourTurns | src/main/java/com/myq/interview/cleaner/Robot.java:191-197 | four right turns, or four left turns, work, cost 4 and change nothing else |
| Simulation.ScenarioLowBattery | src/main/java/com/myq/interview/cleaner/Robot.java:55-61 | too little energy to clean: the run stops with only the start visited and the battery untouched |
| Simulation.ScenarioAdvance | src/main/java/com/myq/interview/cleaner/Robot.java:147-159 | one free advance costs 2 and adds one visited cell |
| Simulation.ScenarioFirstStrategy | src/main/java/com/myq/interview/cleaner/Robot.java:118-137 | a blocked advance costs 2; the first strategy then works, costs 4 and ends one cell to the east, facing North |
| Simulation.TurnsThenBlocked | src/main/java/com/myq/interview/cleaner/Robot.java:125-130 | on a one-cell floor, a strategy of turns then a move keeps its turns and fails at the move, having paid for both |
| Simulation.ScenarioStrategyFourKeepsBackMove | src/main/java/com/myq/interview/cleaner/Robot.java:25 | in a corner beside a column, the fourth strategy's back move works and its last advance is blocked: the robot stays one cell back, facing East, with both cells visited and 7 spent |
| Simulation.EnclosedFirstStrategies | src/main/java/com/myq/interview/cleaner/Robot.java:21-24 | walled in, each of the first three strategies turns right, fails at its advance and spends 3 |
| Simulation.EnclosedLastStrategies | src/main/java/com/myq/interview/cleaner/Robot.java:25-26 | walled in, the fourth strategy fails at its back move and spends 4, and the fifth turns twice, fails at its advance and spends 4 |
| Simulation.EnclosedBackOff | src/main/java/com/myq/interview/cleaner/Robot.java:118-137 | walled in, all five strategies fail in order, from 98 down to 81, ending South |
| Simulation.ScenarioEnclosed | src/main/java/com/myq/interview/cleaner/Robot.java:41-62 | walled in with 100, the run is stuck after the first command, at the start facing South with 81, and the rest of the script never runs |
| Robots.Robot.constructor | src/main/java/com/myq/interview/cleaner/Robot.java:34-39 | the robot starts at the given position, facing and battery, in a fresh room with nothing visited |
| Robots.Robot.Consume | src/main/java/com/myq/interview/cleaner/Robot.java:102-110 | the new state and outcome are those of Simulation.Consume |
| Robots.Robot.CleanHere | src/main/java/com/myq/interview/cleaner/Robot.java:91-95 | the new state and outcome are those of the reference clean |
| Robots.Robot.Turn | src/main/java/com/myq/interview/cleaner/Robot.java:191-197 | the index formula over the direction list yields the reference turn |
| Robots.Robot.Move | src/main/java/com/myq/interview/cleaner/Robot.java:147-159 | pays first, then steps and marks visited only if the next cell is free, as the reference move |
| Robots.Robot.Advance | src/main/java/com/myq/interview/cleaner/Robot.java:167-169 | the reference move costing 2, forward |
| Robots.Robot.Backward | src/main/java/com/myq/interview/cleaner/Robot.java:174-176 | the reference move costing 3, backward |
| Robots.Robot.RunCommand | src/main/java/com/myq/interview/cleaner/Robot.java:72-89 | the new state and outcome are those of Simulation.RunCommand |
| Robots.Robot.TryStrategy | src/main/java/com/myq/interview/cleaner/Robot.java:124-130 | the inner loop stops at the first command that fails or lacks energy, as Simulation.RunStrategy |
| Robots.Robot.TriggerBackOffStrategy | src/main/java/com/myq/interview/cleaner/Robot.java:118-137 | the loop over the table, with its worked flag and breaks, yields Simulation.BackOff |
| Robots.Robot.Work | src/main/java/com/myq/interview/cleaner/Robot.java:41-62 | the final state is Simulation.Work's, and the report holds the final visited and cleaned sets, position, facing and battery |
| Validation.FirstInvalidCell | src/main/java/com/myq/interview/cleaner/InputOutputParser.java:105-109 | gives no index exactly when every cell is null, 'S' or 'C'; otherwise the first invalid cell |
| Validation.FirstInvalidRow | src/main/java/com/myq/interview/cleaner/InputOutputParser.java:104-110 | gives no index exactly when every row is present and valid; otherwise the first null or invalid row |
| Validation.RowError | src/main/java/com/myq/interview/cleaner/InputOutputParser.java:104-115 | a null row fails with the invalid-map error; a present invalid row fails with the invalid-character error naming its first cell other than null, 'S' or 'C' |
| Validation.FirstUnknownCommand | src/main/java/com/myq/interview/cleaner/InputOutputParser.java:119-124 | gives no index exactly when every token is a command; otherwise the first unknown token |
| Validation.Validate | src/main/java/com/myq/interview/cleaner/InputOutputParser.java:73-139 | accepts exactly the well-formed inputs. On acceptance the battery is at least 0, and the start, facing, commands and map are those of the input. The start cell is not an obstacle |
| Validation.ValidateDocument | src/main/java/com/myq/interview/cleaner/InputOutputParser.java:61-138 | a null document is rejected with "Invalid input data." through the generic catch; a present one is accepted exactly when it is well formed, with the result of `Validate` |
| Validation.FirstFailingCheckDecides | src/main/java/com/myq/interview/cleaner/InputOutputParser.java:73-139 | when check k is the first of the 16 checks to fail, the input is rejected with check k's message prefix |
| Validation.NoFailingCheckAccepts | src/main/java/com/myq/interview/cleaner/InputOutputParser.java:73-139 | an input is accepted exactly when none of the 16 checks fails |
| Validation.FirstFailure | src/main/java/com/myq/interview/cleaner/InputOutputParser.java:73-139 | an input that fails any check is rejected |
| Validation.RejectsNoBattery | src/main/java/com/myq/interview/cleaner/InputOutputParser.java:75-77 | a null battery gives "No battery given." |
| Validation.RejectsNegativeBattery | src/main/java/com/myq/interview/cleaner/InputOutputParser.java:78-80 | a negative battery is rejected with its value |
| Validation.RejectsNoCommands | src/main/java/com/myq/interview/cleaner/InputOutputParser.java:81-83 | a null command list is rejected once the battery passes |
| Validation.RejectsNoMap | src/main/java/com/myq/interview/cleaner/InputOutputParser.java:84-86 | a null map is rejected once battery and commands pass |
| Validation.RejectsNoStart | src/main/java/com/myq/interview/cleaner/InputOutputParser.java:87-89 | a null start is rejected next |
| Validation.RejectsNoStartX | src/main/java/com/myq/interview/cleaner/InputOutputParser.java:91-94 | a null start x is rejected next |
| Validation.RejectsNoStartY | src/main/java/com/myq/interview/cleaner/InputOutputParser.java:95-98 | a null start y is rejected next |
| Validation.RejectsStartOutsideMap | src/main/java/com/myq/interview/cleaner/InputOutputParser.java:99-101 | a start row outside the map, or a negative x, is out of the room, with both coordinates |
| Validation.RejectsNullFirstRow | src/main/java/com/myq/interview/cleaner/InputOutputParser.java:99-101 | a null row 0 throws while its width is read, giving "Invalid input data." |
| Validation.RejectsStartBeyondFirstRow | src/main/java/com/myq/interview/cleaner/InputOutputParser.java:99-101 | an x at or past the width of row 0 is out of the room, whatever the start row's own width |
| Validation.EarlyChecksPass | src/main/java/com/myq/interview/cleaner/InputOutputParser.java:75-101 | when checks 0 to 9 pass, the fields are present, the battery is non-negative, the start row is in the map and x is within row 0 |
| Validation.MapChecksPass | src/main/java/com/myq/interview/cleaner/InputOutputParser.java:103-115 | when checks 0 to 11 pass, the map loop finds no invalid row |
| Validation.RejectsNullRow | src/main/java/com/myq/interview/cleaner/InputOutputParser.java:111-115 | a null row reached before any invalid character gives "Invalid room map." |
| Validation.RejectsInvalidCharacter | src/main/java/com/myq/interview/cleaner/InputOutputParser.java:104-110 | the first invalid row decides the error; when it is present, the error is an invalid character, namely its first cell other than null, 'S' or 'C' |
| Validation.RejectsUnknownFacing | src/main/java/com/myq/interview/cleaner/InputOutputParser.java:116-118 | an unknown or null facing is rejected after the map passes, with that facing |
| Validation.RejectsUnknownCommand | src/main/java/com/myq/interview/cleaner/InputOutputParser.java:119-124 | an unknown or null command token is rejected after the facing passes, naming the first such token |
| Validation.TokenChecksPass | src/main/java/com/myq/interview/cleaner/InputOutputParser.java:75-129 | when checks 0 to 13 pass, only the start cell remains to be checked |
| Validation.RejectsShortStartRow | src/main/java/com/myq/interview/cleaner/InputOutputParser.java:130-138 | a start row shorter than x throws on indexing, giving "Invalid input data." |
| Validation.RejectsStartNotOnSpace | src/main/java/com/myq/interview/cleaner/InputOutputParser.java:130-133 | a start cell other than 'S' is rejected, naming that cell |
| Validation.ValidatedRunIsConsistent | src/main/java/com/myq/interview/cleaner/InputOutputParser.java:73-139 | for every accepted input the run keeps the invariant: battery between 0 and the initial value, start visited, cleaned within visited, only free cells visited |

## Left out

- Logging: log4j messages are diagnostic only and change no state.
- JSON reading and writing, file checks and argument parsing (`parseArguments`, `getInput`, `writeOutput`): these are file I/O and library calls. `Input` stands for the parsed document.
- `Main.main` and its exit codes: process plumbing.
- The exception classes: exceptions are `Outcome.LowBattery` and the `InvalidInput` variants.
- The `RuntimeException`s for an unknown command or facing are not modelled. Commands and facings are enumerations, so these cases cannot arise.
- The "Invalid list of commands." branch is not modelled. Iterating a non-null token array cannot throw, so the branch is unreachable.
- The `all_commands` flag of `work` only decides whether a final log line is written. It is not modelled.
- The sort order of the output sets is not modelled. It comes from `Position`'s ordering, which is not part of this model. The reports hold `set<Pos>`.
- `Robots.Robot.Work` returns its report by value. In the source the output shares the room's set objects and the robot's position object; that aliasing is not modelled.
- The robot constructor takes validated values rather than the `Input` object. In the source the robot aliases the input's start position object.
- Java `int` overflow is not modelled. The battery only decreases, by at most 5 per command, and a command runs only when the battery covers its cost, so the battery stays in [0, initial].
- Character comparison: the source compares boxed `Character`s by reference. The model compares values. The two agree for the ASCII characters 'S' and 'C', because that range is cached. Any other character is invalid under either reading.
- Messages are modelled by their fixed leading text only, which is what callers match. The formatted values are not modelled, except that they are kept as fields of the error.
- Validation.FirstFailingCheckDecides: states only the message prefix that the first failing check raises. The exact error values, including the offending value, are stated by the per-check `Rejects` lemmas.
