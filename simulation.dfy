/**
 * The reference semantics of Robot.java as pure functions over a robot state:
 * one command, one backoff strategy, the backoff table, and the whole run.
 * The class Robot in robot.dfy is proved to compute exactly these.
 */
module Simulation {
  import opened Tables
  import opened Grid
  import opened Wrappers

  /** Position, facing and battery of the robot, with the room's visited and cleaned sets. */
  datatype State = State(pos: Pos, facing: Facing, battery: int, visited: set<Pos>, cleaned: set<Pos>)

  /** What a command yields: whether it worked, or the low-battery exception with its amounts. */
  datatype Outcome = Done(worked: bool) | LowBattery(needed: nat, remaining: int)

  datatype Run = Run(out: Outcome, st: State)

  /** How a run ended: the whole script, stuck after a failed backoff, or out of energy. */
  datatype Halt = Completed | Stuck | BatteryExhausted

  datatype Final = Final(halt: Halt, st: State)

  /** The output of a run: both sets, the final position and facing, and the battery left. */
  datatype Report = Report(visited: set<Pos>, cleaned: set<Pos>, position: Pos, facing: Facing, battery: int)

  function ReportOf(s: State): Report
  {
    Report(s.visited, s.cleaned, s.pos, s.facing, s.battery)
  }

  /** The energy each command deducts when it is paid for. */
  function Cost(c: Command): nat
  {
    match c
    case Clean => CLEAN_CONSUMPTION
    case TurnRight => TURN_CONSUMPTION
    case TurnLeft => TURN_CONSUMPTION
    case Advance => GO_ADVANCE_CONSUMPTION
    case Back => GO_BACK_CONSUMPTION
  }

  /** The direction a move goes: forward for Advance, backward for Back. */
  function Front(c: Command): int
  {
    if c == Back then GO_BACK else GO_AHEAD
  }

  /** The unit step of each facing on the map: y grows southwards. */
  function StepX(f: Facing): int
  {
    match f
    case North => 0
    case East => 1
    case South => 0
    case West => -1
  }

  function StepY(f: Facing): int
  {
    match f
    case North => -1
    case East => 0
    case South => 1
    case West => 0
  }

  /** getNextPosition: the cell in front of (front = 1) or behind (front = -1) the robot. */
  function NextPosition(p: Pos, f: Facing, front: int): (r: Pos)
    ensures r == Pos(p.x + front * StepX(f), p.y + front * StepY(f))
  {
    match f
    case North => Pos(p.x, p.y - front)
    case East => Pos(p.x + front, p.y)
    case South => Pos(p.x, p.y + front)
    case West => Pos(p.x - front, p.y)
  }

  lemma AdvanceThenBackReturns(p: Pos, f: Facing)
    ensures NextPosition(NextPosition(p, f, GO_AHEAD), f, GO_BACK) == p
    ensures NextPosition(p, f, GO_AHEAD) != p
  {
  }

  /**
   * The properties every reachable state has: the battery is not negative,
   * the robot stands on a visited cell, cleaned cells were visited, and every
   * visited cell is free floor.
   */
  ghost predicate Consistent(cells: CellMap, s: State)
  {
    && s.battery >= 0
    && s.pos in s.visited
    && s.cleaned <= s.visited
    && forall p :: p in s.visited ==> !IsObstacle(cells, p)
  }

  /** t is a later state than s: no energy gained, no visited or cleaned cell forgotten. */
  ghost predicate Grows(s: State, t: State)
  {
    t.battery <= s.battery && s.visited <= t.visited && s.cleaned <= t.cleaned
  }

  /** consume: pay c if the battery holds enough, otherwise fail without any change. */
  function Consume(s: State, c: nat): (r: Run)
    ensures r.out.LowBattery? <==> s.battery < c
    ensures r.out.LowBattery? ==> r.st == s
    ensures r.out.Done? ==> r.out.worked && r.st == s.(battery := s.battery - c) && r.st.battery >= 0
  {
    if s.battery < c then Run(LowBattery(c, s.battery), s)
    else Run(Done(true), s.(battery := s.battery - c))
  }

  /** clean: pay, then mark the current cell cleaned. */
  function CleanHere(s: State): (r: Run)
    ensures r.out.LowBattery? <==> s.battery < CLEAN_CONSUMPTION
    ensures r.out.LowBattery? ==> r.st == s
    ensures r.out.Done? ==>
      r.out.worked && r.st == s.(battery := s.battery - CLEAN_CONSUMPTION, cleaned := s.cleaned + {s.pos})
  {
    var paid := Consume(s, CLEAN_CONSUMPTION);
    if paid.out.LowBattery? then paid
    else Run(Done(true), paid.st.(cleaned := paid.st.cleaned + {paid.st.pos}))
  }

  /** turn: pay, then move the facing one step along DIRECTION. */
  function Turn(s: State, turn: int): (r: Run)
    requires turn == TURN_RIGHT || turn == TURN_LEFT
    ensures r.out.LowBattery? <==> s.battery < TURN_CONSUMPTION
    ensures r.out.LowBattery? ==> r.st == s
    ensures r.out.Done? ==>
      && r.out.worked
      && r.st == s.(battery := s.battery - TURN_CONSUMPTION, facing := r.st.facing)
      && r.st.facing == if turn == TURN_RIGHT then Clockwise(s.facing) else Anticlockwise(s.facing)
  {
    var paid := Consume(s, TURN_CONSUMPTION);
    if paid.out.LowBattery? then paid
    else Run(Done(true), paid.st.(facing := Turned(paid.st.facing, turn)))
  }

  /** move: pay first, then step only if the next cell is not an obstacle. */
  function Move(cells: CellMap, s: State, consumption: nat, front: int): (r: Run)
    ensures r.out.LowBattery? <==> s.battery < consumption
    ensures r.out.LowBattery? ==> r.st == s
    // the energy is spent whether or not the move is blocked
    ensures r.out.Done? ==> r.st.battery == s.battery - consumption
    ensures r.out.Done? ==> (r.out.worked <==> !IsObstacle(cells, NextPosition(s.pos, s.facing, front)))
    ensures r.out == Done(false) ==> r.st == s.(battery := s.battery - consumption)
    ensures r.out == Done(true) ==>
      var next := NextPosition(s.pos, s.facing, front);
      r.st == s.(battery := s.battery - consumption, pos := next, visited := s.visited + {next})
  {
    var paid := Consume(s, consumption);
    if paid.out.LowBattery? then paid
    else
      var next := NextPosition(paid.st.pos, paid.st.facing, front);
      if !IsObstacle(cells, next) then
        Run(Done(true), paid.st.(pos := next, visited := paid.st.visited + {next}))
      else
        Run(Done(false), paid.st)
  }

  /** run_command: one command of a script or of a strategy. */
  function RunCommand(cells: CellMap, s: State, c: Command): (r: Run)
    // the cost is checked before anything happens, and is then paid in full
    ensures r.out.LowBattery? <==> s.battery < Cost(c)
    ensures r.out.LowBattery? ==> r.out == LowBattery(Cost(c), s.battery) && r.st == s
    ensures r.out.Done? ==> r.st.battery == s.battery - Cost(c)
    // only a move can fail, and a failed move changes nothing but the battery
    ensures r.out == Done(false) ==>
      (c == Advance || c == Back)
      && IsObstacle(cells, NextPosition(s.pos, s.facing, Front(c)))
      && r.st == s.(battery := s.battery - Cost(c))
    // a move that works lands on the neighbour and records it as visited
    ensures (c == Advance || c == Back) && r.out == Done(true) ==>
      var next := NextPosition(s.pos, s.facing, Front(c));
      && !IsObstacle(cells, next)
      && r.st == s.(battery := s.battery - Cost(c), pos := next, visited := s.visited + {next})
    // a turn changes nothing but the facing and the battery
    ensures (c == TurnRight || c == TurnLeft) && r.out.Done? ==>
      r.out.worked
      && r.st == s.(battery := s.battery - Cost(c),
                    facing := Turned(s.facing, if c == TurnRight then TURN_RIGHT else TURN_LEFT))
    // clean changes nothing but the cleaned set and the battery
    ensures c == Clean && r.out.Done? ==>
      r.out.worked && r.st == s.(battery := s.battery - Cost(c), cleaned := s.cleaned + {s.pos})
    ensures Grows(s, r.st)
    ensures Consistent(cells, s) ==> Consistent(cells, r.st)
  {
    match c
    case Clean => CleanHere(s)
    case TurnRight => Turn(s, TURN_RIGHT)
    case TurnLeft => Turn(s, TURN_LEFT)
    case Advance => Move(cells, s, GO_ADVANCE_CONSUMPTION, GO_AHEAD)
    case Back => Move(cells, s, GO_BACK_CONSUMPTION, GO_BACK)
  }

  /** The energy a command sequence costs when every command is paid for. */
  function TotalCost(cs: seq<Command>): nat
  {
    if cs == [] then 0 else Cost(cs[0]) + TotalCost(cs[1..])
  }

  /**
   * One backoff strategy: its commands in order, stopping at the first that
   * fails or runs out of energy; what was done before the stop stays done.
   */
  function RunStrategy(cells: CellMap, s: State, strategy: seq<Command>): (r: Run)
    ensures r.out.Done? && r.out.worked ==> r.st.battery == s.battery - TotalCost(strategy)
    ensures r.out.LowBattery? ==> r.st.battery == r.out.remaining < r.out.needed <= CLEAN_CONSUMPTION
    ensures Grows(s, r.st)
    ensures Consistent(cells, s) ==> Consistent(cells, r.st)
    decreases |strategy|
  {
    if strategy == [] then Run(Done(true), s)
    else
      var r := RunCommand(cells, s, strategy[0]);
      if r.out == Done(true) then RunStrategy(cells, r.st, strategy[1..]) else r
  }

  /**
   * The backoff table from strategy k on: stop at the first strategy that
   * works (or at low battery); a failed strategy's effects carry over.
   */
  function TryStrategies(cells: CellMap, s: State, k: nat): (r: Run)
    requires k <= |BACKOFF_STRATEGIES|
    ensures r.out.LowBattery? ==> r.st.battery == r.out.remaining < r.out.needed <= CLEAN_CONSUMPTION
    ensures Grows(s, r.st)
    ensures Consistent(cells, s) ==> Consistent(cells, r.st)
    decreases |BACKOFF_STRATEGIES| - k
  {
    if k == |BACKOFF_STRATEGIES| then Run(Done(false), s)
    else
      var r := RunStrategy(cells, s, BACKOFF_STRATEGIES[k]);
      if r.out != Done(false) then r else TryStrategies(cells, r.st, k + 1)
  }

  /**
   * triggerBackOffStrategy: the whole table from the first strategy. How much
   * a backoff that works or fails has spent is stated by WorkedBackOffSpends
   * and FailedBackOffSpends.
   */
  function BackOff(cells: CellMap, s: State): (r: Run)
    ensures r.out.LowBattery? ==> r.st.battery == r.out.remaining < r.out.needed <= CLEAN_CONSUMPTION
    ensures Grows(s, r.st)
    ensures Consistent(cells, s) ==> Consistent(cells, r.st)
  {
    TryStrategies(cells, s, 0)
  }

  /**
   * A strategy that stops (a failed move or low battery) is the prefix of
   * its commands that worked, followed by the command that stopped it, run
   * from the state that prefix left: nothing done before the stop is undone.
   */
  lemma {:induction false} FailedStrategyKeepsPrefix(cells: CellMap, s: State, cs: seq<Command>)
    requires RunStrategy(cells, s, cs).out != Done(true)
    ensures exists j :: 0 <= j < |cs| && RunStrategy(cells, s, cs[..j]).out == Done(true)
                        && RunStrategy(cells, s, cs) == RunCommand(cells, RunStrategy(cells, s, cs[..j]).st, cs[j])
    decreases |cs|
  {
    assert cs != [];
    var r := RunCommand(cells, s, cs[0]);
    if r.out == Done(true) {
      FailedStrategyKeepsPrefix(cells, r.st, cs[1..]);
      var j :| 0 <= j < |cs[1..]| && RunStrategy(cells, r.st, cs[1..][..j]).out == Done(true)
               && RunStrategy(cells, r.st, cs[1..]) == RunCommand(cells, RunStrategy(cells, r.st, cs[1..][..j]).st, cs[1..][j]);
      assert cs[..j + 1] != [] && cs[..j + 1][0] == cs[0] && cs[..j + 1][1..] == cs[1..][..j];
      assert RunStrategy(cells, s, cs[..j + 1]) == RunStrategy(cells, r.st, cs[1..][..j]);
      assert cs[j + 1] == cs[1..][j];
    } else {
      assert cs[..0] == [];
      assert RunStrategy(cells, s, cs[..0]) == Run(Done(true), s);
    }
  }

  /**
   * states[0], states[1], ... is a run of failed strategies from table entry k
   * on: each one starts from the state the one before it left.
   */
  ghost predicate FailedInOrder(cells: CellMap, states: seq<State>, k: nat)
  {
    && |states| >= 1 && k + |states| - 1 <= |BACKOFF_STRATEGIES|
    && forall i :: 0 <= i < |states| - 1 ==>
         RunStrategy(cells, states[i], BACKOFF_STRATEGIES[k + i]) == Run(Done(false), states[i + 1])
  }

  /**
   * The states the strategies from table entry k on start from: the first
   * is s, and each failed strategy's end state is the start of the next.
   */
  ghost function Attempts(cells: CellMap, s: State, k: nat): seq<State>
    requires k <= |BACKOFF_STRATEGIES|
    decreases |BACKOFF_STRATEGIES| - k
  {
    if k == |BACKOFF_STRATEGIES| then [s]
    else
      var r := RunStrategy(cells, s, BACKOFF_STRATEGIES[k]);
      if r.out != Done(false) then [s] else [s] + Attempts(cells, r.st, k + 1)
  }

  /** A failed strategy k in front of failed strategies from k + 1 on. */
  lemma PrependFailed(cells: CellMap, s: State, rest: seq<State>, k: nat)
    requires FailedInOrder(cells, rest, k + 1)
    requires RunStrategy(cells, s, BACKOFF_STRATEGIES[k]) == Run(Done(false), rest[0])
    ensures FailedInOrder(cells, [s] + rest, k)
  {
    var states := [s] + rest;
    forall i | 0 <= i < |states| - 1
      ensures RunStrategy(cells, states[i], BACKOFF_STRATEGIES[k + i]) == Run(Done(false), states[i + 1])
    {
      if i == 0 {
        assert states[0] == s && states[1] == rest[0];
      } else {
        assert states[i] == rest[i - 1] && states[i + 1] == rest[i] && k + i == k + 1 + (i - 1);
      }
    }
  }

  /**
   * The strategies from k on are tried in table order, each from the state
   * the failed one before it left: nothing a failed strategy did is rolled
   * back.
   */
  lemma {:induction false} AttemptsFailInOrder(cells: CellMap, s: State, k: nat)
    requires k <= |BACKOFF_STRATEGIES|
    ensures FailedInOrder(cells, Attempts(cells, s, k), k) && Attempts(cells, s, k)[0] == s
    decreases |BACKOFF_STRATEGIES| - k
  {
    if k == |BACKOFF_STRATEGIES| {
      assert Attempts(cells, s, k) == [s];
    } else {
      var r := RunStrategy(cells, s, BACKOFF_STRATEGIES[k]);
      if r.out == Done(false) {
        AttemptsFailInOrder(cells, r.st, k + 1);
        PrependFailed(cells, s, Attempts(cells, r.st, k + 1), k);
        assert Attempts(cells, s, k) == [s] + Attempts(cells, r.st, k + 1);
      } else {
        assert Attempts(cells, s, k) == [s];
      }
    }
  }

  /**
   * A backoff from k on that fails has tried every strategy and ends where
   * the last one left off.
   */
  lemma {:induction false} AttemptsEndFailed(cells: CellMap, s: State, k: nat)
    requires k <= |BACKOFF_STRATEGIES|
    requires TryStrategies(cells, s, k).out == Done(false)
    ensures var states := Attempts(cells, s, k);
            k + |states| - 1 == |BACKOFF_STRATEGIES| && TryStrategies(cells, s, k).st == states[|states| - 1]
    decreases |BACKOFF_STRATEGIES| - k
  {
    if k < |BACKOFF_STRATEGIES| {
      var r := RunStrategy(cells, s, BACKOFF_STRATEGIES[k]);
      AttemptsEndFailed(cells, r.st, k + 1);
      var rest := Attempts(cells, r.st, k + 1);
      assert Attempts(cells, s, k) == [s] + rest;
      assert ([s] + rest)[|rest|] == rest[|rest| - 1];
    }
  }

  /**
   * A backoff from k on that stops (a strategy works or the battery runs
   * low) has as its result that strategy run from the state the failed ones
   * before it left.
   */
  lemma {:induction false} AttemptsEndStopped(cells: CellMap, s: State, k: nat)
    requires k <= |BACKOFF_STRATEGIES|
    requires TryStrategies(cells, s, k).out != Done(false)
    ensures var states := Attempts(cells, s, k);
            && k + |states| - 1 < |BACKOFF_STRATEGIES|
            && TryStrategies(cells, s, k) == RunStrategy(cells, states[|states| - 1], BACKOFF_STRATEGIES[k + |states| - 1])
    decreases |BACKOFF_STRATEGIES| - k
  {
    var r := RunStrategy(cells, s, BACKOFF_STRATEGIES[k]);
    if r.out == Done(false) {
      AttemptsEndStopped(cells, r.st, k + 1);
      var rest := Attempts(cells, r.st, k + 1);
      assert Attempts(cells, s, k) == [s] + rest;
      assert ([s] + rest)[|rest|] == rest[|rest| - 1];
    } else {
      assert Attempts(cells, s, k) == [s];
    }
  }

  /**
   * The least a strategy spends when it fails: only a move can fail, so it
   * has paid for every command up to and including its first move.
   */
  function FailFloor(cs: seq<Command>): nat
  {
    if cs == [] then 0
    else if cs[0] == Advance || cs[0] == Back then Cost(cs[0])
    else Cost(cs[0]) + FailFloor(cs[1..])
  }

  lemma {:induction false} FailedStrategySpends(cells: CellMap, s: State, cs: seq<Command>)
    requires RunStrategy(cells, s, cs).out == Done(false)
    ensures RunStrategy(cells, s, cs).st.battery <= s.battery - FailFloor(cs)
    decreases |cs|
  {
    assert cs != [];
    var r := RunCommand(cells, s, cs[0]);
    if r.out == Done(true) && cs[0] != Advance && cs[0] != Back {
      FailedStrategySpends(cells, r.st, cs[1..]);
    }
  }

  /** The least a backoff from strategy k on spends when every remaining strategy fails. */
  function FailFloorFrom(k: nat): nat
    requires k <= |BACKOFF_STRATEGIES|
    decreases |BACKOFF_STRATEGIES| - k
  {
    if k == |BACKOFF_STRATEGIES| then 0 else FailFloor(BACKOFF_STRATEGIES[k]) + FailFloorFrom(k + 1)
  }

  lemma {:induction false} FailedStrategiesSpend(cells: CellMap, s: State, k: nat)
    requires k <= |BACKOFF_STRATEGIES|
    requires TryStrategies(cells, s, k).out == Done(false)
    ensures TryStrategies(cells, s, k).st.battery <= s.battery - FailFloorFrom(k)
    decreases |BACKOFF_STRATEGIES| - k
  {
    if k < |BACKOFF_STRATEGIES| {
      var r := RunStrategy(cells, s, BACKOFF_STRATEGIES[k]);
      FailedStrategySpends(cells, s, BACKOFF_STRATEGIES[k]);
      FailedStrategiesSpend(cells, r.st, k + 1);
    }
  }

  /** The failing floors of the five strategies: 3, 3, 3, 4 and 4. */
  lemma TableFailFloor()
    ensures FailFloorFrom(0) == 17
  {
    var t := BACKOFF_STRATEGIES;
    assert FailFloor(t[0][1..]) == 2 && FailFloor(t[1][1..]) == 2 && FailFloor(t[2][1..]) == 2;
    assert FailFloor(t[3][1..]) == 3 && FailFloor(t[4][1..][1..]) == 2;
  }

  /**
   * A backoff that fails has tried all five strategies, each up to its
   * blocked move, and their effects stay: it spends at least 17.
   */
  lemma FailedBackOffSpends(cells: CellMap, s: State)
    requires BackOff(cells, s).out == Done(false)
    ensures BackOff(cells, s).st.battery <= s.battery - 17
  {
    FailedStrategiesSpend(cells, s, 0);
    TableFailFloor();
  }

  /** Every strategy of the table costs at least 4 when it runs to the end. */
  lemma TableLeastCost(k: nat)
    requires k < |BACKOFF_STRATEGIES|
    ensures TotalCost(BACKOFF_STRATEGIES[k]) >= 4
  {
    var t := BACKOFF_STRATEGIES[k];
    assert TotalCost(t[1..][1..]) >= 1;
  }

  /** A backoff that works has run one whole strategy after the failed ones: it spends at least 4. */
  lemma {:induction false} WorkedBackOffSpends(cells: CellMap, s: State, k: nat)
    requires k <= |BACKOFF_STRATEGIES|
    requires TryStrategies(cells, s, k).out == Done(true)
    ensures TryStrategies(cells, s, k).st.battery <= s.battery - 4
    decreases |BACKOFF_STRATEGIES| - k
  {
    var strategy := BACKOFF_STRATEGIES[k];
    var r := RunStrategy(cells, s, strategy);
    if r.out == Done(true) {
      TableLeastCost(k);
    } else {
      WorkedBackOffSpends(cells, r.st, k + 1);
    }
  }

  /** The command loop of work: a failed command triggers backoff; low battery or a failed backoff ends the run. */
  function Exec(cells: CellMap, s: State, cmds: seq<Command>): (f: Final)
    ensures f.halt == BatteryExhausted ==> f.st.battery < CLEAN_CONSUMPTION
    ensures Grows(s, f.st)
    ensures Consistent(cells, s) ==> Consistent(cells, f.st)
    decreases |cmds|
  {
    if cmds == [] then Final(Completed, s)
    else
      var r := RunCommand(cells, s, cmds[0]);
      match r.out
      case LowBattery(_, _) => Final(BatteryExhausted, r.st)
      case Done(worked) =>
        if worked then Exec(cells, r.st, cmds[1..])
        else
          var b := BackOff(cells, r.st);
          match b.out
          case LowBattery(_, _) => Final(BatteryExhausted, b.st)
          case Done(recovered) =>
            if recovered then Exec(cells, b.st, cmds[1..]) else Final(Stuck, b.st)
  }

  /** work: mark the start visited, then run the script. */
  function Work(cells: CellMap, s: State, cmds: seq<Command>): (f: Final)
    ensures s.pos in f.st.visited
    ensures f.st.battery <= s.battery
    ensures s.battery >= 0 && !IsObstacle(cells, s.pos) && s.cleaned <= s.visited
            && (forall p :: p in s.visited ==> !IsObstacle(cells, p))
            ==> Consistent(cells, f.st)
  {
    Exec(cells, s.(visited := s.visited + {s.pos}), cmds)
  }

  /**
   * Going back right after an advance that worked returns to the cell the
   * robot came from, which is visited already: only position and battery change.
   */
  lemma AdvanceThenBack(cells: CellMap, s: State)
    requires Consistent(cells, s)
    requires RunCommand(cells, s, Advance).out == Done(true)
    requires RunCommand(cells, s, Advance).st.battery >= GO_BACK_CONSUMPTION
    ensures var t := RunCommand(cells, s, Advance).st;
            RunCommand(cells, t, Back) == Run(Done(true), t.(battery := t.battery - GO_BACK_CONSUMPTION, pos := s.pos))
  {
    AdvanceThenBackReturns(s.pos, s.facing);
    var t := RunCommand(cells, s, Advance).st;
    assert t.visited + {s.pos} == t.visited;
  }

  /** Once a run has halted, later commands of the script make no difference. */
  lemma {:induction false} ExecHaltIsFinal(cells: CellMap, s: State, cmds: seq<Command>, rest: seq<Command>)
    requires Exec(cells, s, cmds).halt != Completed
    ensures Exec(cells, s, cmds + rest) == Exec(cells, s, cmds)
    decreases |cmds|
  {
    assert cmds != [];
    assert (cmds + rest)[0] == cmds[0] && (cmds + rest)[1..] == cmds[1..] + rest;
    var r := RunCommand(cells, s, cmds[0]);
    if r.out == Done(true) {
      ExecHaltIsFinal(cells, r.st, cmds[1..], rest);
    } else if r.out == Done(false) {
      var b := BackOff(cells, r.st);
      if b.out == Done(true) {
        ExecHaltIsFinal(cells, b.st, cmds[1..], rest);
      }
    }
  }

  /** A completed run continues with the rest of the script from the state it reached. */
  lemma {:induction false} ExecCompletedChains(cells: CellMap, s: State, cmds: seq<Command>, rest: seq<Command>)
    requires Exec(cells, s, cmds).halt == Completed
    ensures Exec(cells, s, cmds + rest) == Exec(cells, Exec(cells, s, cmds).st, rest)
    decreases |cmds|
  {
    if cmds == [] {
      assert cmds + rest == rest;
    } else {
      assert (cmds + rest)[0] == cmds[0] && (cmds + rest)[1..] == cmds[1..] + rest;
      var r := RunCommand(cells, s, cmds[0]);
      if r.out == Done(true) {
        ExecCompletedChains(cells, r.st, cmds[1..], rest);
      } else {
        ExecCompletedChains(cells, BackOff(cells, r.st).st, cmds[1..], rest);
      }
    }
  }

  /** Four right turns (or four left turns) restore the facing, cost 4 and change nothing else. */
  lemma FourTurns(cells: CellMap, s: State)
    requires s.battery >= 4
    ensures RunStrategy(cells, s, [TurnRight, TurnRight, TurnRight, TurnRight]) == Run(Done(true), s.(battery := s.battery - 4))
    ensures RunStrategy(cells, s, [TurnLeft, TurnLeft, TurnLeft, TurnLeft]) == Run(Done(true), s.(battery := s.battery - 4))
  {
    FourTurnsRestore(s.facing);
    var rs := [TurnRight, TurnRight, TurnRight, TurnRight];
    var ls := [TurnLeft, TurnLeft, TurnLeft, TurnLeft];
    assert rs[1..][1..][1..][1..] == [] && ls[1..][1..][1..][1..] == [];
  }

  /** A 3 by 3 floor for the scenarios below, and the same room with a column at (1, 0). */
  const OPEN_ROOM: CellMap := [
    [Some(SPACE_CHAR), Some(SPACE_CHAR), Some(SPACE_CHAR)],
    [Some(SPACE_CHAR), Some(SPACE_CHAR), Some(SPACE_CHAR)],
    [Some(SPACE_CHAR), Some(SPACE_CHAR), Some(SPACE_CHAR)]]

  const COLUMN_ROOM: CellMap := [
    [Some(SPACE_CHAR), Some(COLUMN_CHAR), Some(SPACE_CHAR)],
    [Some(SPACE_CHAR), Some(SPACE_CHAR), Some(SPACE_CHAR)],
    [Some(SPACE_CHAR), Some(SPACE_CHAR), Some(SPACE_CHAR)]]

  /** Too little energy to clean: the run stops at once, with only the start visited. */
  lemma ScenarioLowBattery()
    ensures var f := Work(OPEN_ROOM, State(Pos(1, 1), North, 1, {}, {}), [Clean]);
            f == Final(BatteryExhausted, State(Pos(1, 1), North, 1, {Pos(1, 1)}, {}))
  {
  }

  /** One free advance north: battery -2, one new visited cell, nothing cleaned. */
  lemma ScenarioAdvance()
    ensures var f := Work(OPEN_ROOM, State(Pos(1, 1), North, 10, {}, {}), [Advance]);
            f == Final(Completed, State(Pos(1, 0), North, 8, {Pos(1, 1), Pos(1, 0)}, {}))
  {
  }

  /**
   * A column blocks the advance: the blocked advance still costs 2, then the
   * first strategy (turn right, advance, turn left) works and costs 4.
   */
  lemma ScenarioFirstStrategy()
    ensures var f := Work(COLUMN_ROOM, State(Pos(1, 1), North, 10, {}, {}), [Advance]);
            f == Final(Completed, State(Pos(2, 1), North, 4, {Pos(1, 1), Pos(2, 1)}, {}))
  {
    var s0 := State(Pos(1, 1), North, 10, {Pos(1, 1)}, {});
    var s1 := State(Pos(1, 1), North, 8, {Pos(1, 1)}, {});
    assert RunCommand(COLUMN_ROOM, s0, Advance) == Run(Done(false), s1);
    var s2 := State(Pos(1, 1), East, 7, {Pos(1, 1)}, {});
    var s3 := State(Pos(2, 1), East, 5, {Pos(1, 1), Pos(2, 1)}, {});
    var s4 := State(Pos(2, 1), North, 4, {Pos(1, 1), Pos(2, 1)}, {});
    var strategy := BACKOFF_STRATEGIES[0];
    assert RunCommand(COLUMN_ROOM, s1, TurnRight) == Run(Done(true), s2);
    assert RunCommand(COLUMN_ROOM, s2, Advance) == Run(Done(true), s3);
    assert RunCommand(COLUMN_ROOM, s3, TurnLeft) == Run(Done(true), s4);
    assert strategy[1..][1..][1..] == [];
    assert RunStrategy(COLUMN_ROOM, s1, strategy) == Run(Done(true), s4);
    assert BackOff(COLUMN_ROOM, s1) == Run(Done(true), s4);
  }

  /** On a one-cell floor every move from that cell is blocked. */
  lemma WalledIn(s: State, c: Command)
    requires s.pos == Pos(0, 0) && s.battery >= Cost(c)
    requires c == Advance || c == Back
    ensures RunCommand([[Some(SPACE_CHAR)]], s, c) == Run(Done(false), s.(battery := s.battery - Cost(c)))
  {
  }

  /** A turn on its own, with enough energy. */
  lemma Turning(cells: CellMap, s: State, c: Command)
    requires s.battery >= 1
    requires c == TurnRight || c == TurnLeft
    ensures RunCommand(cells, s, c)
         == Run(Done(true), s.(battery := s.battery - 1, facing := Turned(s.facing, if c == TurnRight then TURN_RIGHT else TURN_LEFT)))
  {
  }

  /** A strategy of turns followed by a blocked move: the turns stand, the move's energy is spent. */
  lemma TurnsThenBlocked(s: State, turns: seq<Command>, move: Command, tail: seq<Command>, f: Facing)
    requires s.pos == Pos(0, 0) && s.battery >= |turns| + Cost(move)
    requires move == Advance || move == Back
    requires forall i :: 0 <= i < |turns| ==> turns[i] == TurnRight || turns[i] == TurnLeft
    requires f == FacingAfter(s.facing, turns)
    ensures RunStrategy([[Some(SPACE_CHAR)]], s, turns + [move] + tail)
         == Run(Done(false), s.(battery := s.battery - |turns| - Cost(move), facing := f))
    decreases |turns|
  {
    var cs := turns + [move] + tail;
    if turns == [] {
      assert cs[0] == move;
      WalledIn(s, move);
    } else {
      assert cs[0] == turns[0] && cs[1..] == turns[1..] + [move] + tail;
      Turning([[Some(SPACE_CHAR)]], s, turns[0]);
      var t := RunCommand([[Some(SPACE_CHAR)]], s, turns[0]).st;
      TurnsThenBlocked(t, turns[1..], move, tail, f);
    }
  }

  /** The facing after a sequence of turns. */
  function FacingAfter(f: Facing, turns: seq<Command>): Facing
    requires forall i :: 0 <= i < |turns| ==> turns[i] == TurnRight || turns[i] == TurnLeft
    decreases |turns|
  {
    if turns == [] then f
    else FacingAfter(Turned(f, if turns[0] == TurnRight then TURN_RIGHT else TURN_LEFT), turns[1..])
  }

  /** Walled in on a one-cell floor, each of the first three strategies fails at its advance; the turns and the energy stay spent. */
  lemma EnclosedFirstStrategies(v: set<Pos>)
    ensures RunStrategy([[Some(SPACE_CHAR)]], State(Pos(0, 0), North, 98, v, {}), BACKOFF_STRATEGIES[0])
         == Run(Done(false), State(Pos(0, 0), East, 95, v, {}))
    ensures RunStrategy([[Some(SPACE_CHAR)]], State(Pos(0, 0), East, 95, v, {}), BACKOFF_STRATEGIES[1])
         == Run(Done(false), State(Pos(0, 0), South, 92, v, {}))
    ensures RunStrategy([[Some(SPACE_CHAR)]], State(Pos(0, 0), South, 92, v, {}), BACKOFF_STRATEGIES[2])
         == Run(Done(false), State(Pos(0, 0), West, 89, v, {}))
  {
    TurnsThenBlocked(State(Pos(0, 0), North, 98, v, {}), [TurnRight], Advance, [TurnLeft], East);
    assert BACKOFF_STRATEGIES[0] == [TurnRight] + [Advance] + [TurnLeft];
    TurnsThenBlocked(State(Pos(0, 0), East, 95, v, {}), [TurnRight], Advance, [TurnRight], South);
    assert BACKOFF_STRATEGIES[1] == [TurnRight] + [Advance] + [TurnRight];
    TurnsThenBlocked(State(Pos(0, 0), South, 92, v, {}), [TurnRight], Advance, [TurnRight], West);
    assert BACKOFF_STRATEGIES[2] == [TurnRight] + [Advance] + [TurnRight];
  }

  /** The last two strategies fail the same way, at a blocked back move and a blocked advance. */
  lemma EnclosedLastStrategies(v: set<Pos>)
    ensures RunStrategy([[Some(SPACE_CHAR)]], State(Pos(0, 0), West, 89, v, {}), BACKOFF_STRATEGIES[3])
         == Run(Done(false), State(Pos(0, 0), North, 85, v, {}))
    ensures RunStrategy([[Some(SPACE_CHAR)]], State(Pos(0, 0), North, 85, v, {}), BACKOFF_STRATEGIES[4])
         == Run(Done(false), State(Pos(0, 0), South, 81, v, {}))
  {
    TurnsThenBlocked(State(Pos(0, 0), West, 89, v, {}), [TurnRight], Back, [TurnRight, Advance], North);
    assert ([TurnRight] + [Back] + [TurnRight, Advance])[2..] == [TurnRight, Advance];
    assert BACKOFF_STRATEGIES[3] == [TurnRight] + [Back] + [TurnRight, Advance];
    TurnsThenBlocked(State(Pos(0, 0), North, 85, v, {}), [TurnLeft, TurnLeft], Advance, [], South);
    assert BACKOFF_STRATEGIES[4] == [TurnLeft, TurnLeft] + [Advance] + [];
  }

  /** Walled in on a one-cell floor with 98 left, all five strategies fail, each keeping its effects. */
  lemma EnclosedBackOff(v: set<Pos>)
    ensures BackOff([[Some(SPACE_CHAR)]], State(Pos(0, 0), North, 98, v, {}))
         == Run(Done(false), State(Pos(0, 0), South, 81, v, {}))
  {
    var cells: CellMap := [[Some(SPACE_CHAR)]];
    var t5 := State(Pos(0, 0), South, 81, v, {});
    EnclosedFirstStrategies(v);
    EnclosedLastStrategies(v);
    assert TryStrategies(cells, State(Pos(0, 0), North, 85, v, {}), 4) == Run(Done(false), t5);
    assert TryStrategies(cells, State(Pos(0, 0), West, 89, v, {}), 3) == Run(Done(false), t5);
    assert TryStrategies(cells, State(Pos(0, 0), South, 92, v, {}), 2) == Run(Done(false), t5);
    assert TryStrategies(cells, State(Pos(0, 0), East, 95, v, {}), 1) == Run(Done(false), t5);
  }

  /** A corner with a null cell to the east and a column to the south-east. */
  const CORNER_ROOM: CellMap := [
    [Some(SPACE_CHAR), NO_ROOM_NULL_CHAR],
    [Some(SPACE_CHAR), Some(COLUMN_CHAR)]]

  /** Backing up from the north-facing corner is free; advancing east into the column is blocked. */
  lemma CornerMoves(s1: State, s3: State)
    requires s1 == State(Pos(0, 0), North, 49, {Pos(0, 0)}, {})
    requires s3 == State(Pos(0, 1), East, 45, {Pos(0, 0), Pos(0, 1)}, {})
    ensures RunCommand(CORNER_ROOM, s1, Back) == Run(Done(true), State(Pos(0, 1), North, 46, {Pos(0, 0), Pos(0, 1)}, {}))
    ensures RunCommand(CORNER_ROOM, s3, Advance) == Run(Done(false), s3.(battery := 43))
  {
    assert !IsObstacle(CORNER_ROOM, Pos(0, 1));
    assert IsObstacle(CORNER_ROOM, Pos(1, 1));
  }

  /**
   * Strategy 4 (turn right, back, turn right, advance) fails at its last
   * command: the back move that worked and both turns stay, and every command
   * is paid for (1 + 3 + 1 + 2).
   */
  lemma ScenarioStrategyFourKeepsBackMove()
    ensures RunStrategy(CORNER_ROOM, State(Pos(0, 0), West, 50, {Pos(0, 0)}, {}), BACKOFF_STRATEGIES[3])
         == Run(Done(false), State(Pos(0, 1), East, 43, {Pos(0, 0), Pos(0, 1)}, {}))
  {
    var s0 := State(Pos(0, 0), West, 50, {Pos(0, 0)}, {});
    var s1 := State(Pos(0, 0), North, 49, {Pos(0, 0)}, {});
    var s2 := State(Pos(0, 1), North, 46, {Pos(0, 0), Pos(0, 1)}, {});
    var s3 := State(Pos(0, 1), East, 45, {Pos(0, 0), Pos(0, 1)}, {});
    var s4 := State(Pos(0, 1), East, 43, {Pos(0, 0), Pos(0, 1)}, {});
    var strategy := BACKOFF_STRATEGIES[3];
    assert strategy == [TurnRight, Back, TurnRight, Advance];
    Turning(CORNER_ROOM, s0, TurnRight);
    Turning(CORNER_ROOM, s2, TurnRight);
    CornerMoves(s1, s3);
    assert RunCommand(CORNER_ROOM, s1, Back) == Run(Done(true), s2);
    assert RunCommand(CORNER_ROOM, s3, Advance) == Run(Done(false), s4);
    assert strategy[1..][1..][1..][1..] == [];
    assert RunStrategy(CORNER_ROOM, s3, strategy[1..][1..][1..]) == Run(Done(false), s4);
  }

  /**
   * A robot walled in on a one-cell floor: the blocked advance and every
   * failed strategy keep their turns and spent energy, and the run ends stuck
   * facing South with 81 of 100 left; the rest of the script never runs.
   */
  lemma ScenarioEnclosed(rest: seq<Command>)
    ensures var f := Work([[Some(SPACE_CHAR)]], State(Pos(0, 0), North, 100, {}, {}), [Advance] + rest);
            f == Final(Stuck, State(Pos(0, 0), South, 81, {Pos(0, 0)}, {}))
  {
    var cells: CellMap := [[Some(SPACE_CHAR)]];
    var v := {Pos(0, 0)};
    var s0 := State(Pos(0, 0), North, 100, v, {});
    var s1 := State(Pos(0, 0), North, 98, v, {});
    var t5 := State(Pos(0, 0), South, 81, v, {});
    WalledIn(s0, Advance);
    assert RunCommand(cells, s0, Advance) == Run(Done(false), s1);
    EnclosedBackOff(v);
    assert Exec(cells, s0, [Advance]) == Final(Stuck, t5);
    ExecHaltIsFinal(cells, s0, [Advance], rest);
    var initial := State(Pos(0, 0), North, 100, {}, {});
    assert initial.(visited := initial.visited + {initial.pos}) == s0;
    assert Work(cells, initial, [Advance] + rest) == Exec(cells, s0, [Advance] + rest);
  }
}
