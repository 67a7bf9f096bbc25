/**
 * Robot.java: the robot as an object whose position, facing and battery
 * change in place, driving the visited and cleaned sets of its Room. Every
 * method is proved to leave exactly the state that the reference semantics
 * in module Simulation prescribes.
 */
module Robots {
  import opened Tables
  import opened Grid
  import opened Simulation

  class Robot {
    var pos: Pos
    var facing: Facing
    var battery: int
    const commands: seq<Command>
    const room: Room

    /** The robot's state together with the room's sets, as the reference semantics sees it. */
    ghost function Snapshot(): State
      reads this, room
    {
      State(pos, facing, battery, room.visited, room.cleaned)
    }

    /** A robot at the start of a run, in a fresh room with nothing visited yet. */
    constructor (start: Pos, facing: Facing, battery: int, commands: seq<Command>, cells: CellMap)
      ensures fresh(room)
      ensures Snapshot() == State(start, facing, battery, {}, {})
      ensures this.commands == commands && room.cells == cells
    {
      this.pos := start;
      this.facing := facing;
      this.battery := battery;
      this.commands := commands;
      this.room := new Room(cells);
    }

    /** consume: deduct c, or report low battery and change nothing. */
    method Consume(c: nat) returns (r: Outcome)
      modifies this
      ensures Run(r, Snapshot()) == Simulation.Consume(old(Snapshot()), c)
    {
      if battery < c {
        return LowBattery(c, battery);
      }
      battery := battery - c;
      r := Done(true);
    }

    /** clean: pay, then record the current cell as cleaned. */
    method CleanHere() returns (r: Outcome)
      modifies this, room
      ensures Run(r, Snapshot()) == Simulation.CleanHere(old(Snapshot()))
    {
      r := Consume(CLEAN_CONSUMPTION);
      if r.LowBattery? {
        return;
      }
      room.MarkCleaned(pos);
    }

    /** turn: pay, then step the facing index by the turn modulo 4. */
    method Turn(turn: int) returns (r: Outcome)
      requires turn == TURN_RIGHT || turn == TURN_LEFT
      modifies this
      ensures Run(r, Snapshot()) == Simulation.Turn(old(Snapshot()), turn)
    {
      r := Consume(TURN_CONSUMPTION);
      if r.LowBattery? {
        return;
      }
      facing := DIRECTION[(Index(facing) + |DIRECTION| + turn) % |DIRECTION|];
    }

    /** move: pay, then step to the next cell unless it is an obstacle. */
    method Move(consumption: nat, front: int) returns (r: Outcome)
      modifies this, room
      ensures Run(r, Snapshot()) == Simulation.Move(room.cells, old(Snapshot()), consumption, front)
    {
      r := Consume(consumption);
      if r.LowBattery? {
        return;
      }
      var next := NextPosition(pos, facing, front);
      if !IsObstacle(room.cells, next) {
        room.MarkVisited(next);
        pos := next;
        r := Done(true);
      } else {
        r := Done(false);
      }
    }

    method Advance() returns (r: Outcome)
      modifies this, room
      ensures Run(r, Snapshot()) == Simulation.Move(room.cells, old(Snapshot()), GO_ADVANCE_CONSUMPTION, GO_AHEAD)
    {
      r := Move(GO_ADVANCE_CONSUMPTION, GO_AHEAD);
    }

    method Backward() returns (r: Outcome)
      modifies this, room
      ensures Run(r, Snapshot()) == Simulation.Move(room.cells, old(Snapshot()), GO_BACK_CONSUMPTION, GO_BACK)
    {
      r := Move(GO_BACK_CONSUMPTION, GO_BACK);
    }

    /** run_command: dispatch one command. */
    method RunCommand(c: Command) returns (r: Outcome)
      modifies this, room
      ensures Run(r, Snapshot()) == Simulation.RunCommand(room.cells, old(Snapshot()), c)
    {
      match c
      case Clean => r := CleanHere();
      case TurnRight => r := Turn(TURN_RIGHT);
      case TurnLeft => r := Turn(TURN_LEFT);
      case Advance => r := Advance();
      case Back => r := Backward();
    }

    /**
     * The inner loop of triggerBackOffStrategy: run one strategy's commands
     * in order until one fails; low battery leaves at once.
     */
    method TryStrategy(strategy: seq<Command>) returns (r: Outcome)
      modifies this, room
      ensures Run(r, Snapshot()) == RunStrategy(room.cells, old(Snapshot()), strategy)
    {
      var j := 0;
      while j < |strategy|
        invariant 0 <= j <= |strategy|
        invariant RunStrategy(room.cells, old(Snapshot()), strategy) == RunStrategy(room.cells, Snapshot(), strategy[j..])
      {
        assert strategy[j..][1..] == strategy[j + 1..];
        var c := RunCommand(strategy[j]);
        if c.LowBattery? || !c.worked {
          return c;
        }
        j := j + 1;
      }
      r := Done(true);
    }

    /**
     * triggerBackOffStrategy: try the strategies in table order, each from the
     * state the previous one left; the first strategy whose every command
     * works ends the search. Low battery leaves at once.
     */
    method TriggerBackOffStrategy() returns (r: Outcome)
      modifies this, room
      ensures Run(r, Snapshot()) == BackOff(room.cells, old(Snapshot()))
    {
      var worked := false;
      var k := 0;
      while k < |BACKOFF_STRATEGIES|
        invariant 0 <= k <= |BACKOFF_STRATEGIES|
        invariant BackOff(room.cells, old(Snapshot())) == TryStrategies(room.cells, Snapshot(), k)
        invariant !worked
      {
        var c := TryStrategy(BACKOFF_STRATEGIES[k]);
        if c.LowBattery? {
          return c;
        }
        worked := c.worked;
        if worked {
          break;
        }
        k := k + 1;
      }
      r := Done(worked);
    }

    /**
     * work: mark the start visited, run the script, call backoff after a
     * failed command, stop when backoff fails or the battery runs out, and
     * report the state reached in every case.
     */
    method Work() returns (report: Report)
      modifies this, room
      ensures Snapshot() == Simulation.Work(room.cells, old(Snapshot()), commands).st
      ensures report == ReportOf(Snapshot())
    {
      room.MarkVisited(pos);
      var i := 0;
      while i < |commands|
        invariant 0 <= i <= |commands|
        invariant Simulation.Work(room.cells, old(Snapshot()), commands)
               == Exec(room.cells, Snapshot(), commands[i..])
      {
        assert commands[i..][1..] == commands[i + 1..];
        var r := RunCommand(commands[i]);
        if r.LowBattery? {
          break;
        }
        if !r.worked {
          var b := TriggerBackOffStrategy();
          if b.LowBattery? || !b.worked {
            break;
          }
        }
        i := i + 1;
      }
      var visited := room.GetVisited();
      var cleaned := room.GetCleaned();
      report := Report(visited, cleaned, pos, facing, battery);
    }
  }
}
